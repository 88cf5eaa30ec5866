# Daily usage tracker: aggregation engine

A model of the background tracker that samples the foreground application
once a second, keeps a per-day aggregate of time spent per application
and per window title plus idle time, saves that aggregate as a JSON
document, writes a plain-text daily report, and rolls over to a fresh
aggregate when the date changes. The Windows tracker (`app_tracker.py`)
and the macOS tracker (`mac_app_tracker.py`) are modelled together: they
differ in where files live, in how an application name and window title
are obtained, in the fallback whitelist, and in how a whitelist entry
matches. The model also covers the decisions of the dashboard server
(`server.py`): which dates it lists, how it validates a date in
`/api/data/<date>`, and which requests it refuses.

Layout, one module per file:

- `Wrappers`: `Option` and `Result`.
- `Dict`: Python's insertion-ordered `dict` as an association list, with
  its lookup and update laws.
- `Text`: the string built-ins the source uses (`strip`, `rstrip`, `lower`,
  `split`, `replace`, `in`, `str(int)`), on `seq<char>`.
- `Duration`: `format_duration` (`H:M:S` via floor `divmod`).
- `Sorting`: Python's stable `sort(key=..., reverse=True)` as an insertion
  sort.
- `Aggregate`: the per-day aggregate, and crediting one second to an
  application and a title.
- `Persistence`: `save_data`, which rewrites legacy `[start, end]` sessions
  into `{"start", "end"}` objects and appends the open session.
- `Report`: `generate_report`, with its boot/shutdown/used/idle summary
  and the ranked application and title lines.
- `Policy`: `load_config` and the two exemption tests.
- `Probe`: the two platforms' post-processing of what the OS probes report,
  and `get_file_paths`.
- `Server`: `/api/dates`, `/api/data/<date>`, the 403 for data files and
  the static rewrite of `/`.
- `Engine`: one pass of `monitor_loop` as a function on the tracker's state.
- `Monitor`: the tracker as a class whose methods update its state in
  place, each proved to compute what `Engine`, `Persistence` and `Report`
  specify.

The clock, `strftime`, `strptime`, the configuration file and the OS probes
are parameters. Timestamps are whole seconds. The idle duration is a
`real`. A Python exception that ends a routine is an `Err` of `Fault`
(`TypeError` or `ValueError`).

The comment above the date check in `monitor_loop` (app_tracker.py:252)
says that when the date changes the old day's report is saved before the
in-memory data is cleared. The code saves it under the new day's date
instead, because `get_file_paths()` defaults to today (app_tracker.py:84-86;
see "Findings"). The model keeps both: `Engine.TickAsWritten` is
the code as written and `Engine.TickSpec` is the intended behaviour, and
`Monitor.Tracker.Tick` implements the latter.

## Model

| member | source | states |
|---|---|---|
| Dict.PutGet | app_tracker.py:306-314 | After `d[k] = v`, `k` is present with value `v`, and every other key keeps its value. |
| Dict.PutKeys | app_tracker.py:306-307 | Assigning to a new key appends it to the key order. Assigning to an existing key keeps the order. |
| Dict.PutPut | app_tracker.py:309-313 | Creating a title at 0 and then setting it is the same as setting it once. |
| Dict.PutDistinct | app_tracker.py:306-310 | Assignment never creates a duplicate key. |
| Dict.PutSum | app_tracker.py:223 | The sum of the values changes by the new value minus the old value (0 when absent). |
| Dict.GetAt | app_tracker.py:221-224 | In a dict without duplicate keys, the entry at position `i` is what lookup of its key returns. |
| Text.StripEmpty | app_tracker.py:74 | `strip()` is empty exactly when every character is whitespace. |
| Text.SplitLast | mac_app_tracker.py:89-90 | The last part of `split('.')` contains no `.`. When the input holds a `.` it is exactly the text after the last `.`; otherwise the split is the whole input. |
| Text.SplitLastPrefix | mac_app_tracker.py:89-90 | The input is some prefix, then the separator, then the last part of the split. |
| Text.SplitJoin | mac_app_tracker.py:90 | Joining the parts of `split(sep)` with `sep` gives back the input. |
| Text.JoinSplit | mac_app_tracker.py:90 | Splitting a join of separator-free parts gives back the parts. |
| Text.JoinLast | mac_app_tracker.py:90 | The last part of a join follows the last separator. |
| Text.RStripChar | server.py:64 | `rstrip('/')` removes exactly the trailing `/` characters. |
| Text.IntToStrRoundTrip | app_tracker.py:171 | `int(str(n)) == n` for every integer, and the text has no `:`. |
| Duration.Breakdown | app_tracker.py:169-170 | Minutes and seconds lie in [0, 60), and `h*3600 + m*60 + s` equals the input, negatives included. |
| Duration.BreakdownUnique | app_tracker.py:169-170 | Any `(h, m, s)` with m and s in [0, 60) that adds up to the input is the breakdown. |
| Duration.FormatDurationRoundTrip | app_tracker.py:167-171 | Parsing the `H:M:S` text back gives the original number of seconds, so the format loses nothing. |
| Sorting.SortDesc | app_tracker.py:227 | The result is in non-increasing key order. |
| Sorting.SortDescPermutes | app_tracker.py:227 | The result is a permutation of the input. |
| Sorting.SortDescStable | app_tracker.py:227 | Elements with equal keys keep their input order, as Python's stable sort does with `reverse=True`. |
| Aggregate.RecordActivityEffect | app_tracker.py:305-314 | The app is present afterwards and gets `Credit` of its old entry (a zero entry when new). A new app is appended to the order. No other app changes. |
| Aggregate.CreditEffect | app_tracker.py:309-314 | `total` and the title's seconds each go up by one, starting from 0 for a new title. A new title is appended. No other title changes. |
| Aggregate.RecordActivityKeepsGap | app_tracker.py:313-314 | No app's `total - sum(titles)` changes. A new app starts at gap 0. |
| Aggregate.RecordActivityConsistent | app_tracker.py:305-314 | `total == sum(titles)` for every app is preserved. |
| Aggregate.RecordActivityWellFormed | app_tracker.py:305-314 | No duplicate app or title keys appear. |
| Aggregate.CreditedPut | app_tracker.py:306-314 | Replacing an app's entry changes the credited total by the new total minus the old one. |
| Aggregate.RecordActivityCredits | app_tracker.py:312-314 | Each recorded second adds exactly one second across all apps' totals. |
| Persistence.SessionObjComplete | app_tracker.py:136-139 | The entry built for a session has both `start` and `end`. |
| Persistence.NormalizeOutcome | app_tracker.py:144-156 | With `strftime` total, rewriting fails exactly when a legacy pair holds a non-number. On success the result has one entry per kept session (legacy pair or complete object), in order. Entry `k` is the `k`-th kept session, with a legacy pair rewritten through `strftime` and an object copied. Every entry is a `{start, end}` object. |
| Persistence.NormalizeErrPropagates | app_tracker.py:146-152 | An exception partway through the list is the result of the whole rewrite. |
| Persistence.NormalizeKeepsObjects | app_tracker.py:153-155 | A list already in the current form is written back unchanged. |
| Persistence.SnapshotEffect | app_tracker.py:130-158 | Idle seconds and apps are saved as they are. The sessions are the kept sessions, each rewritten as `Normalize` does, followed last by the open session formatted from its start and from now. |
| Persistence.SnapshotReload | app_tracker.py:115-158 | Saving, loading the saved document and saving again adds exactly the newly open session. |
| Report.SpansOutcome | app_tracker.py:179-188 | Collecting spans fails exactly when some `{start, end}` session has a `start` or an `end` that is not a string or that `strptime` rejects. Otherwise span `k` is the start and end of the `k`-th kept session: a legacy pair's two numbers, or the `strptime` values of an object's `start` and `end`, both present. |
| Report.SpansErrPropagates | app_tracker.py:180-188 | An exception partway through the list is the result of the whole loop. |
| Report.Earliest | app_tracker.py:197 | `min` is one of the starts and is no greater than any start. |
| Report.Latest | app_tracker.py:201 | `max` is one of the ends and is no smaller than any end. |
| Report.SummarizeEffect | app_tracker.py:190-208 | The open session makes the timeline non-empty. The summary fails only on a non-numeric legacy pair. Boot is at or before every start and the session start, and is one of them. Shutdown is at or after every end and now, and is one of them. Used is the stored spans' durations plus `now - start`. |
| Report.AppsRanked | app_tracker.py:218-227 | Apps are listed in descending recomputed seconds, each exactly once, with ties in insertion order. When every total matches its titles, the recomputed seconds are the stored totals. |
| Report.TitlesRanked | app_tracker.py:232 | Each app's titles are listed in descending seconds, each exactly once, with ties in insertion order as the stable `sorted` keeps them. |
| Report.SpansStep | app_tracker.py:180-188 | The sessions loop's step: the first `i+1` sessions give the spans of the first `i` plus the span of session `i`. |
| Report.TitleLinesStep | app_tracker.py:233-234 | One more title adds one indented line. |
| Report.BodySnoc | app_tracker.py:229-234 | One more app adds its line followed by its title lines. |
| Report.BodyLength | app_tracker.py:229-234 | The app section has one line per app plus one per title. |
| Report.ReportShape | app_tracker.py:210-234 | A report that succeeds is the six header lines followed by one line per app and title, and boot and shutdown bracket the open session. |
| Persistence.NormalizeStep | app_tracker.py:146-155 | The save loop's step: the first `i+1` sessions rewrite to the rewrite of the first `i` plus the entry for session `i`. |
| Policy.LoadConfig | mac_app_tracker.py:175-197 | The whitelist is either the configured list or the platform default. It is the default when the file is missing, unreadable or has no key. A configured list is used as it is, except that on macOS an empty list falls back to the default; on Windows an explicit `[]` is kept. On macOS the result is never empty. |
| Policy.IsExemptMac | mac_app_tracker.py:363-369 | The loop with `break` returns true exactly when the app name is truthy and some entry contains it or is contained in it, ignoring case. |
| Policy.ExactImpliesSubstring | app_tracker.py:280-284 | Every app the Windows exact test exempts is also exempted by the macOS substring test. |
| Probe.OrUnknown | app_tracker.py:73-75 | The recorded title is never blank. A title that is not blank is kept as it is, and a blank one becomes `Unknown Title`. |
| Probe.WindowsInfo | app_tracker.py:61-79 | There is a name and a title exactly when there is a foreground window. The name is its process name; the title is its text, or `Unknown Title` when that is blank. |
| Probe.UnknownTitleNotBlank | app_tracker.py:75 | The `Unknown Title` placeholder is itself not blank. |
| Probe.NotBlank | app_tracker.py:74 | A string whose first character is not whitespace strips to a non-empty string. |
| Probe.AppSuffix | mac_app_tracker.py:123-124 | A non-empty name ends in `.app` afterwards, and only the empty name stays empty. A name already ending in `.app` is kept; any other non-empty name gets `.app` appended. |
| Probe.AppSuffixIdempotent | mac_app_tracker.py:123-124 | Adding the suffix twice is the same as adding it once. |
| Probe.MacAppNameShape | mac_app_tracker.py:84-124 | Every non-empty recorded name ends in `.app`. A localized name is used as it is. Otherwise a dotted bundle identifier gives the text after its last `.`, with the suffix added, and an undotted one is used whole, with the suffix added. With neither, no name is recorded. |
| Probe.MacTitle | mac_app_tracker.py:107-119 | The title is never blank. A successful script run with non-blank output gives the stripped output. A successful run with blank output, a failed run or an exception gives `Unknown Title`. |
| Probe.MacInfo | mac_app_tracker.py:72-126 | Without a frontmost app there is no name and no title. Otherwise the name is the app's recorded name, which ends in `.app` when non-empty, and the title is the script's title, never blank. |
| Probe.StripStripped | mac_app_tracker.py:113-118 | Stripping the stripped output again is blank only when it was already empty. |
| Probe.FilePathsShape | mac_app_tracker.py:146-164 | For an 8-character date the three files are named after the date and share one directory: `Data/YYYY.MM` on macOS, `Data` on Windows. |
| Probe.FilePathsDistinct | app_tracker.py:84-91 | Two different dates of the same length never share a data file. |
| Server.DateOf | server.py:43-46 | A match gives eight digits, and the name starts with them followed by `.data.json`. Conversely, a name ending in `.data.json` that starts with eight digits followed by `.data.json` gives those digits. |
| Server.DateOfDataFile | server.py:44-46 | The server recovers the date from the name of every data file the tracker writes. |
| Server.ListDates | server.py:40-47 | The loop followed by the sort computes the descending sort of the extracted dates. |
| Server.ExtractMembers | server.py:40-46 | The extracted dates are exactly the dates of the data files in the listing, and all are `\d{8}`. |
| Server.DatesListed | server.py:40-47 | The sorted extraction lists every data file's date exactly as often as it occurs, newest first, and nothing else. |
| Server.DatesRoute | server.py:38-60 | `/api/dates` answers 200 with exactly that list of dates; a listing that raised gives 500 with its message. |
| Server.DateOrder | server.py:47 | For digit strings of one length, Python's string order is numeric order, so sorting by value is `dates.sort`. |
| Server.DigitsValueBound | server.py:47 | An `n`-digit string is worth less than `10^n`. |
| Server.DigitsValueHead | server.py:47 | The leading digit weighs `10^(n-1)`. |
| Server.ValidDate | server.py:64-71 | With `x` the path after `replace('/api/data/', '')` and `rstrip('/')`, the date is accepted exactly when `x` is eight digits, or eight digits and the one newline that `$` lets through. An accepted date is `x` itself. |
| Server.Handle | server.py:30-113 | A request goes to the static server exactly when it is not `/api/dates`, not under `/api/data/` and not a data file. It gets the 400 exactly when it is under `/api/data/` with a rejected date. It gets the 403 exactly when it is a data file outside the API. |
| Server.ApiDataIsNotDates | server.py:38-63 | `/api/dates` is not under `/api/data/`, so the two API branches never overlap. |
| Server.BadDate | server.py:63-71 | `/api/data/2025-01-01`, `/api/data/latest` and `/api/data/` each get the 400 with the invalid-date message. |
| Server.RemoveAllNoSlash | server.py:64 | `replace('/api/data/', '')` leaves a text without `/` unchanged. |
| Server.RemoveAllNoSlashEnd | server.py:64 | The same holds with one trailing `/`. |
| Server.RemoveAllSlash | server.py:64 | The same holds for a date followed by `/`. |
| Server.ValidDateOfApiPath | server.py:63-71 | The dashboard's request for any date the tracker writes is accepted as that date, with or without a final `/`. |
| Server.DataFilesNeverStatic | server.py:99-105 | A path ending in `.data.json` is never passed to the static server. Outside `/api/data/` it gets the 403. |
| Server.DataRequestsAt | server.py:63-97 | For any path under `/api/data/` whose date is accepted (extra trailing slashes included), the accepted date's file decides: missing gives the empty document with 200, unreadable gives 500 with its message, readable gives 200 with its contents. |
| Server.DataRequests | server.py:63-97 | For the dashboard's path of a date, with or without a final `/`: a missing file gives the empty document with 200, an unreadable one gives 500 with its message, and a readable one gives 200 with its contents. |
| Server.EmptyDocument | server.py:95 | The empty document is the tracker's empty aggregate: `{"sessions": [], "idle_seconds": 0, "apps": {}}`. |
| Server.StaticRewrite | server.py:107-113 | `/` and `/index.html` are served as `/daily.html`. Any other non-API path that is not a data file is served as requested. |
| Engine.FlushPaths | app_tracker.py:130-162 | A flush writes only the data file and the report of its date, the data file first. |
| Engine.TickAsWritten | app_tracker.py:250-265 | The pass as written has the same new state, log and halting as the intended pass, and writes the same documents and reports in the same order; only the file paths differ. |
| Engine.RolloverMisfiled | app_tracker.py:253-256 | As written, a rollover writes the outgoing day's document into the new day's data file, and nothing into the outgoing day's files. |
| Engine.FilePathsReportDistinct | app_tracker.py:84-91 | Two different dates never share a report file. |
| Engine.NotSameKind | app_tracker.py:87-91 | No day's data file is any day's report file. |
| Engine.RolloverFiled | app_tracker.py:253-256 | With the outgoing day flushed under its own date, a save and a report that both succeed write its document and then its report to its own files, and the pass does not halt. |
| Engine.RolloverReset | app_tracker.py:253-265 | The rollover completes exactly when both save and report succeed. Then the new day starts empty, dated today, with its session starting now, and the rollover message comes first in the log. Otherwise the state is unchanged and nothing is logged. |
| Engine.IdleTick | app_tracker.py:290-297 | An idle second adds one to `idle_seconds`, changes nothing else, sets the flag, and logs "Idle Start" only when the flag was clear. |
| Engine.ActiveTick | app_tracker.py:298-314 | An attributable second adds one to that title and that app's total, starting from 0 when new. No other app and no idle second changes. The flag is cleared, and "Idle End" is logged only when it was set. |
| Engine.UnattributedTick | app_tracker.py:298-305 | A non-idle second without an app name or a title changes only the idle flag. |
| Engine.ExemptNeverIdle | app_tracker.py:280-288 | An exempt app never counts an idle second and clears the flag, however long the input has been idle. |
| Engine.RecordIdleFlag | app_tracker.py:286-302 | After the decision the flag equals `real_idle`, and exactly one line is logged when it flips. |
| Engine.IdleFlag | app_tracker.py:250-302 | Across a whole pass the flag follows the idle decision, and "Idle Start" / "Idle End" are logged exactly on a flip. |
| Engine.TickRecords | app_tracker.py:250-314 | A pass that does not halt applies the idle decision to the day it ends on, after the rollover message if there is one. |
| Engine.OneCounterMoves | app_tracker.py:290-314 | Within a day, each pass adds exactly one second to the counted total when the second is idle or attributable, and none otherwise. An idle second leaves apps alone, and an active one leaves `idle_seconds` alone. |
| Engine.WindowsProbeCredited | app_tracker.py:270-314 | On Windows, a second that is not idle is credited exactly when there is a foreground window with a non-empty process name, and then to that name under the window text, or `Unknown Title` when that is blank. |
| Engine.MacProbeCredited | mac_app_tracker.py:355-399 | On macOS, a second that is not idle is credited exactly when the frontmost app has a recorded name, and then to that `.app` name under the script's title. |
| Engine.TickKeepsInvariant | app_tracker.py:250-314 | Every pass, rollovers included, preserves no duplicate keys and `total == sum(titles)`. |
| Monitor.Tracker.constructor | app_tracker.py:28-42 | Start-up state: today's stored aggregate if one loads, else the empty one; not idle; dated today; session starting now. |
| Monitor.Tracker.SaveData | app_tracker.py:130-158 | The loop builds exactly the document `Persistence.Snapshot` specifies, including the exception case. |
| Monitor.Tracker.CollectSpans | app_tracker.py:179-188 | The loop builds exactly `Report.Spans`, including the exception case. |
| Monitor.Tracker.AppsList | app_tracker.py:220-224 | The loop builds one row per app in insertion order, with its seconds recomputed from its titles. |
| Monitor.Tracker.GenerateReport | app_tracker.py:174-234 | The report is exactly `Report.ReportLines`. |
| Monitor.Tracker.IsAppExempt | mac_app_tracker.py:363-369 | The platform's exemption test, exact on Windows and substring on macOS. |
| Monitor.Tracker.Tick | app_tracker.py:250-314 | One pass updates the object's state to, and returns the files and log of, `Engine.TickSpec`. |
| Monitor.Tracker.Rollover | app_tracker.py:253-265 | Writes the outgoing day's document and report to its own files, then resets. On an exception it stops with the state unchanged. |
| Monitor.Tracker.RecordSecond | app_tracker.py:267-314 | The idle decision and the locked block update the state and log as `Engine.Record` does. |
| Monitor.Tracker.CreditSecond | app_tracker.py:305-314 | The step-by-step dict updates amount to `Aggregate.RecordActivity`, and nothing else changes. |
| Monitor.RenderApps | app_tracker.py:229-234 | The nested loop produces exactly `Report.Body` of the ranked rows. |
| Monitor.RenderTitles | app_tracker.py:233-234 | The inner loop produces one indented line per title, in ranked order. |

## Left out

- The OS probes are left out and replaced by their results, a `Window`, `MacApp` or `ScriptRun` value. This covers `GetLastInputInfo`, `win32gui`, `psutil`, `NSWorkspace`, Quartz and `osascript`. The probes are foreign calls.
- The macOS `psutil` fallback in `get_active_window_info` is not modelled. It returns the first process name in the process table, which is an OS query.
- File and JSON I/O are not modelled: `os.path.exists`, `open`, `json.load`/`json.dump` formatting, and `makedirs`. A save is a `DataFile` value and a report a `ReportFile` value. Failing writes are not modelled.
- `write_log` timestamps and the log file are not modelled. Log messages are returned as a list. "Service Started" and "Error loading json" are not modelled.
- `threading`, `data_lock`, the tray icon thread, `running` and `time.sleep` are left out, because concurrency is out of scope. One call of `Tick` is one loop pass.
- The `% 30` autosave in the loop is not modelled; it repeats the modelled `save_data`. The same goes for `exit_handler`/`atexit` and the tray's `on_quit`.
- `Engine.TickSpec`: the autosave (app_tracker.py:316-318) is outside any `try`, so when a stored legacy pair holds a non-number its `save_data()` raises and ends the monitor thread even on a pass without a date change. In the model a pass without a date change never halts.
- `Persistence.NormalizeOutcome`, `Report.ReportLines`: the formatting parameter `fmt` is total. `datetime.fromtimestamp` raising for a stamp outside the platform's range (a negative stamp on Windows, or one beyond year 9999) in the save loop (app_tracker.py:150-151, mac_app_tracker.py:235-236) and for boot and shutdown (app_tracker.py:198, 202) is not modelled; only `strptime` is partial.
- `time.time()`, `strftime` and `strptime` are parameters. Timestamps are whole seconds, so `int(seconds)` truncation of fractional durations is not modelled. `time.time()` is read once per pass, while the source reads it separately in each call.
- `Policy.LoadConfig`: an `idleExempt` value that is not a list of strings is not modelled. In the source, a string gives a substring test on Windows. A `null` value is returned as `None` on Windows (app_tracker.py:110) and `exe_name in exempt_list` then raises inside the loop (app_tracker.py:283); on macOS `None` is falsy, so the default list is used (mac_app_tracker.py:191-194).
- `load_data` is not modelled for documents of another shape. It is the `stored` parameter of `Monitor.Tracker.constructor`, already an aggregate or nothing. A stored document lacking `idle_seconds` or `apps`, which raises `KeyError` later, is not modelled.
- Nested dicts updated in place (`stats_data["apps"][name]["titles"]`) are values that `Monitor.Tracker.CreditSecond` reassigns. The saved copy (`stats_data.copy()` is shallow, app_tracker.py:142, mac_app_tracker.py:227), the saved session list (app_tracker.py:155) and the ranked rows share the nested dicts, but nothing is updated through them, so no update is observed through an alias; aliasing is not modelled.
- `apps_list.sort` sorts a list in place. It is modelled as `Sorting.SortDesc` on a sequence value.
- `Text.Lower` lowers ASCII letters only, and `Text.Strip` removes only the Latin-1 characters Python counts as whitespace. Python's full Unicode case and whitespace tables are not modelled.
- Server: `\d` is modelled as ASCII digits. Python's `re` also accepts other Unicode decimal digits.
- Server: `urlparse`/`parse_qs` are not modelled; `Server.Handle` takes the parsed path and the raw request path. A newline that `$` lets through in `Server.ValidDate` cannot arrive through `urlsplit`, which removes newlines.
- Server: the outer `except` that turns any exception into a 500 is not modelled. Neither are CORS headers, `do_OPTIONS`, `log_message`, the static file server itself and the port setup.
- The server lists only `Data` itself. The macOS tracker writes into `Data/YYYY.MM`, so the server does not see the macOS files. The model states both paths (`Probe.FilePathsShape`, `Server.ListDates`) but does not reconcile them.
- The tray menu, its image, the folder opener, `run_view_data_statistics.py` and `create_startup_lnk_win.py` are not part of this model.

## Findings

| source | as written | input that shows it | evidently intended | confidence | as-written member | corrected member |
|---|---|---|---|---|---|---|
| app_tracker.py:253-256 | On a date change, `save_data()` and `generate_report()` call `get_file_paths()` without a date. They use today's date, so the outgoing day's final document and report are written under the new day's name. | `current_date_str = "20250101"`, first pass with `now_date = "20250102"`: the 2025-01-01 aggregate is written to `20250102.data.json` and `20250102.report.txt`. `20250101.data.json` keeps only its last autosave, and the first save of 2025-01-02 overwrites the misfiled document. | Flush the outgoing day into the files of `current_date_str`. | high, not executed | Engine.RolloverMisfiled | Engine.RolloverFiled |
| mac_app_tracker.py:336-339 | The same. The outgoing day is filed in the new day's `YYYY.MM` directory, so the last day of a month lands in the next month's directory. | `current_date_str = "20250131"`, `now_date = "20250201"`: January 31's aggregate goes to `Data/2025.02/20250201.data.json`. | Flush into `get_file_paths(current_date_str)`. | high, not executed | Engine.RolloverMisfiled | Engine.RolloverFiled |
