# Printing press scheduler — a Dafny model

This project models the scheduling core of a small printing-press scheduler page. The page
keeps a list of print jobs for one session. Each job gets a production rate from a product
table and a press from its raw board's width. Boards wider than 50 go to the wide
**Heidelberg** press. Narrower boards, and unknown boards (which default to width 50.0), go
to the **Kidder**. On every render the page computes a start and an end for every job:

- jobs are placed in their list order;
- each press keeps an availability frontier, and both frontiers start at "now" truncated to
  the hour;
- a job with a preferred start begins at that time on its run-by date;
- any other job begins at its press's frontier;
- every job lasts `rolls / rate` hours, and its end then becomes its press's frontier.

The page also has a chat box. Input starting with `suggest:`, in any case, is recorded as
a suggestion.

Modules (one file each):

- `Wrappers` (wrappers.dfy): `Option` and `Result`.
- `Clock` (clock.dfy): dates as day ordinals, times of day, and instants as exact real hours.
  `Combine` is the date-time library's `combine`; `TruncateToHour` is the hour truncation
  of the wall-clock reading.
- `Catalog` (catalog.dfy): the product-rate and board-width tables, with their literal
  values written as exact decimals.
- `Jobs` (jobs.dfy): the job record and the job builder.
- `Scheduler` (scheduler.dfy): `ScheduleJobs`, the loop over the jobs with its two-entry
  frontier map. It is proved equal to the recursive specification `Schedule`, and the
  lemmas give the properties of `Schedule`.
- `Suggestions` (suggestions.dfy): the prefix test, the slice and Python's `str.strip`.
- `Session` (session.dfy): the session state as a class with three append-only lists; the
  builder and the parser are wired into its "Add Job" and "Send" actions.

Two points where the code's behaviour may be unexpected; the model follows the code:

- the presses are called Heidelberg and Kidder, not PressA and PressB;
- a preferred start of midnight counts as present, because a Python `time` value is always
  truthy. Only a missing value (`None`) means "no preferred start".

Besides the points listed under "## Left out", one point where the model does not follow the
code: on an empty job list the code fails,
while `Scheduler.ScheduleJobs` and `Session.SessionState.CurrentSchedule` return the empty
schedule. `Scheduler.ScheduleAsWritten` keeps the failing behaviour (see Findings).

## Model

| member | source | states |
|---|---|---|
| Clock.Combine | app.py:123 | the combined instant lies within the given hour of the given day |
| Clock.TruncateToHour | app.py:119 | the truncated reading is on the hour, on the same date, and at most one hour before the reading: it is the hour's floor |
| Catalog.RatesPositive | app.py:12-31 | every catalogued rate is positive |
| Jobs.BuildJob | app.py:67-80 | fails exactly for a product not in the rate table; otherwise the rate is the product's table rate (positive), the width is the board's table width or 50.0 for an unknown board, the press is Heidelberg exactly when the width exceeds 50, and product, board, rolls, run-by date and preferred start are copied unchanged |
| Jobs.BoardWidthOf | app.py:69 | the width is the board's table width, or 50.0 for a board not in the table, and is always positive |
| Jobs.PressFor | app.py:70 | the press is Heidelberg exactly when the width is strictly greater than 50, otherwise Kidder |
| Jobs.NarrowBoardsGoToKidder | app.py:69-70 | an unknown board, or a board of width 50 or less, yields a job on the Kidder |
| Jobs.RoutingExamples | app.py:12-44 | boards B163600316C (60.3125) and B163510332C (51.5) route to Heidelberg; B166420332C (42.5) and an unknown board (width 50.0) route to Kidder; DUT10-40360R6W has rate 4.76; an unknown product fails |
| Scheduler.Schedule | app.py:113-129 | the schedule has one row per job |
| Scheduler.Place | app.py:123-126 | the row keeps the job, lasts rolls / rate hours, ends at start + duration, and starts at combine(run-by date, preferred start) when there is one, else at the given frontier |
| Scheduler.Frontier | app.py:120-127 | a press on which none of the jobs ran is still free at the starting instant (the frontier after a press's last job is its end: Scheduler.FrontierIsLastEnd) |
| Scheduler.ScheduleJobs | app.py:113-129 | the loop with its frontier map returns exactly the specification schedule from "now" truncated to the hour; it reads neither the maintenance list nor anything but the hour of "now"; an empty job list gives an empty schedule |
| Scheduler.ScheduleAsWritten | app.py:114-115 | the code as written fails with a missing `Rolls` column exactly on the empty job list, and otherwise gives the schedule |
| Scheduler.EmptyListAsWrittenAndIntended | app.py:114-115 | on the empty job list the code as written fails, while the intended schedule is empty |
| Scheduler.ScheduleAt | app.py:122-127 | row i is job i placed at its press's frontier after jobs 0..i-1 |
| Scheduler.ScheduleRows | app.py:114-117 | same length and order as the input, every job kept unchanged, duration = rolls / rate, end = start + duration |
| Scheduler.FrontierIsLastEnd | app.py:119-120 | after the first i jobs, a press's frontier is the end of the last of them on that press, or the truncated "now" if none ran on it |
| Scheduler.StartRule | app.py:123 | a job with a preferred start begins at combine(run-by date, preferred start); any other job begins at the end of the most recent earlier job on its press, whether or not that job had a preferred start, or at the truncated "now" if there is none |
| Scheduler.PreferredStartIndependent | app.py:123-126 | a job with a preferred start gets the same row whatever jobs precede it and whatever "now" is |
| Scheduler.ScenarioExamples | app.py:115-126 | 100 rolls at 4.76 rolls per hour last between 21.0084 and 21.0085 hours and end that long after the frontier; a 09:00 preferred start begins at 09:00 on the run-by date whatever the frontier |
| Scheduler.FrontierOnPress | app.py:127 | a press's frontier is unchanged by removing every job of the other press |
| Scheduler.OtherPressIrrelevant | app.py:120-127 | scheduling only press p's jobs gives exactly press p's rows of the full schedule |
| Scheduler.SamePressJobsSameRows | app.py:120-127 | two job lists with the same jobs on press p give press p the same rows, however the other press's jobs are interleaved |
| Scheduler.FrontierMonotone | app.py:124-127 | without preferred starts, a press's frontier never moves backward as jobs are placed |
| Scheduler.NoOverlap | app.py:115-127 | without preferred starts and with at least one roll per job, every job starts no earlier than the truncated "now" and has positive length, and a later job on the same press starts no earlier than an earlier one ends |
| Scheduler.PreferredStartCanMoveFrontierBack | app.py:123-127 | a concrete three-job list in which an early preferred start moves the Kidder's frontier back, so that the third job starts before the first one ends |
| Suggestions.Lower | app.py:105 | the result has the input's length; every ASCII capital becomes its small letter and every other character is unchanged |
| Suggestions.IsSpace | app.py:106 | the white-space set of `str.isspace`; no printable ASCII character other than the space is in it |
| Suggestions.LeadingSpaces | app.py:106 | the count of leading characters removed: all of them white space, and the next character, if any, is not |
| Suggestions.TrailingSpaces | app.py:106 | the count of trailing characters removed: all of them white space, and the character before them, if any, is not |
| Suggestions.Strip | app.py:106 | the result follows the leading white space of the input, neither begins nor ends with white space, and everything after it is white space |
| Suggestions.StripIdempotent | app.py:106 | stripping a stripped text changes nothing |
| Suggestions.ParseSuggestion | app.py:105-106 | a suggestion is found exactly when the first eight characters read "suggest:" in any mix of cases; it is the rest of the input with surrounding white space removed |
| Session.SessionState.constructor | app.py:48-55 | a session starts with empty job, suggestion and maintenance lists |
| Session.SessionState.AddJob | app.py:67-81 | the built job is appended to the job list; an unknown product leaves the list unchanged; stored jobs keep positive rates |
| Session.SessionState.Send | app.py:104-109 | exactly one entry, the parsed suggestion, is appended when the input carries the prefix; nothing is appended otherwise |
| Session.SessionState.CurrentSchedule | app.py:131 | the rendered schedule is the specification schedule of the session's current job list |
| Session.RerenderAgrees | app.py:113-131 | two renders with the same jobs, any maintenance lists and clock readings in the same hour give identical schedules with one row per job |

## Findings

| source | as written | input that shows it | evidently intended | confidence | as-written member | corrected member |
|---|---|---|---|---|---|---|
| app.py:114-115 | a table built from an empty job list has no `Rolls` column, so computing `DurationHours` fails. The session starts with an empty list (app.py:48-49) and app.py:131 schedules on every render, so the first page load fails | the empty job list | an empty schedule, which app.py:137-149 show as "No jobs scheduled yet." | high; not executed | Scheduler.ScheduleAsWritten | Scheduler.ScheduleJobs |

## Left out

- The page's widgets, messages, page settings and layout (app.py:8-9, 59-65, 82, 86-90, 98, 102-103, 107, 109) are presentation. The model's methods take the widget values as parameters.
- The Gantt chart and the suggestion list display (app.py:133-156) are rendering only.
- The maintenance entry (app.py:92-97) is a bare append with no validation, and the scheduler never reads the list. The session keeps the list, but the append itself is not modelled.
- Table mechanics (building the table, iterating over rows, writing cells) are modelled as a sequence of job records and a sequence of rows. The duration column, computed for all rows at once, is a sequence comprehension.
- Wall clock: the reading of "now" (app.py:119) is a parameter of `ScheduleJobs`.
- Date and time library: dates are day ordinals. `Combine` is a fixed arithmetic map to hours. Calendar validity of dates and time zones are not modelled.
- Date and time range: Python date-times only cover the years 1 to 9999, and `timedelta` is bounded too, so a very large roll count or a run-by date near the end of that range makes app.py:124 raise OverflowError. The model's days are unbounded integers and its instants unbounded reals, so it has no such failure.
- Floating point: rates, widths, durations and instants are exact reals. Binary rounding of the rate literals and rounding of a duration to whole microseconds (app.py:124) are not modelled.
- Scheduler.NoOverlap: assumes every job has at least one roll. The job builder does not check this; the roll-quantity input (app.py:62) enforces it.
- Scheduler.ScheduleJobs: requires every rate to be positive. Jobs built from the catalogue have this property. With a zero rate the code would compute an infinite duration at app.py:115, and `timedelta(hours=inf)` would then raise OverflowError at app.py:124. The model does not represent that failure.
- Scheduler.ScheduleJobs and Session.SessionState.CurrentSchedule: return the empty schedule for an empty job list, where the code raises KeyError at app.py:115 (see Findings).
- Suggestions.ParseSuggestion: lower-cases only ASCII letters. Python's `str.lower` also maps other letters, and some of those mappings change a string's length.
- Session persistence across page reruns (app.py:48-55) is modelled as one long-lived object.
