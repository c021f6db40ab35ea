# wamotd — a Dafny model of the weather-and-message-of-the-day server

wamotd drives an e-ink display. It does two things:

- It polls OpenWeatherMap for a forecast and redraws the display periodically, showing a screensaver at night.
- It serves a small web page for setting a message of the day (the "motd"), which a JSON file keeps across restarts.

This project models the logic at its core:

- **Shared context** (`server.py`): what each of these does to the shared state:
  - the poller (`fetch_forecast`, `poll_fetcher`), including its exit after two DNS failures in a row;
  - the render loop (`update_screen`, `render_loop`, `is_night`);
  - the HTTP handlers (`set_motd`, `POST`/`DELETE /motd`, `/preview`, `render_latest`);
  - startup (`create_app`);
  - the "time since" text (`format_last_update_time`).
- **The store** (`store.py`): an in-memory cache of strings mirrored to a file. The file is a second map.
- **The renderer's decisions** (`renderer.py`): the icon-code-to-glyph table, the lookups into the forecast document, the description's capitalisation and the clock text cleanup.

Modules:

- `Py`: the Python behaviour the model needs:
  - exceptions as values;
  - `str()` of integers;
  - `lstrip`, `replace` and `upper`;
  - subscripting of decoded JSON.
- `Clock`:
  - `is_night`;
  - `str(timedelta)`;
  - `format_last_update_time`.
- `Store`: `FileStore`.
- `Renderer`: the glyph table, the document lookups and the `Renderer` class.
- `Poller`:
  - `fetch_forecast` as a transition;
  - the polling loop as a trace of fetch outcomes, with its event schedule;
  - what the process does after the poller exits.
- `Server`: the `Context` class and its methods, the pages, and `create_app`.

Inputs are passed in as parameters:

- the clock, as integer microseconds of local time;
- the fetcher's outcomes;
- the contents of the store file;
- whether a file write succeeds.

Each loop runs over a trace of ticks.

Where the written code and its evident intent differ, the model keeps both. The as-written behaviour is stated and exhibited; the rest of the model uses the corrected behaviour (see "## Findings").

Three behaviours of the code worth stating plainly:

- With a device, in daytime and with an exception stored, `update_screen` raises UnboundLocalError before pushing, so `screen_updated_at` is not set.
- A failed write or a missing form field in the motd handlers becomes Flask's generic 500 or 400 response, not a message of the handler's own.
- The motd handlers read the clock in `set_motd`, for `motd_updated_at`, and then several more times while `render_latest` builds the page (`image_ts` and each `format_last_update_time` call). The model keeps the stamp's reading, `now`, apart from one reading for the whole page, `pageNow`.

## Model

| member | source | states |
|---|---|---|
| Py.IntToString | server.py:195-199 | `str()` of an integer: never empty, and starts with '-' exactly for negative numbers |
| Py.ParseDigits | server.py:195-199 | the decimal digits of a natural number read back as that number |
| Py.Pad2 | renderer.py:66 | `%02d`-style padding is two digits that read back as the number |
| Py.LStrip | renderer.py:66 | `lstrip(c)` never lengthens the string, and what it returns does not start with `c` |
| Py.ReplaceAbsent | renderer.py:66 | `replace` of a pattern that occurs nowhere leaves the string unchanged |
| Py.Upper | renderer.py:82 | `upper()` maps an ASCII lower-case letter to its upper-case letter and leaves every other character alone |
| Py.Subscript | renderer.py:69-81 | `j[k]` succeeds only on a dict key it has, a list or string position in range, giving that entry; on a dict it succeeds exactly when the key is present, on a list or string exactly when the position is in range |
| Clock.TimeOfDay | server.py:133 | `datetime.now().time()` is below one day |
| Clock.NightBoundaries | server.py:132-136 | 22:00 and 06:05 are daytime, one microsecond past either is night; 23:00 and 05:00 are night, 10:00 is day |
| Clock.DaytimeWindow | server.py:132-136 | not night exactly when the time of day lies in the closed window 06:05 to 22:00 |
| Clock.TimeOfDayOnDay | server.py:133 | a time of day placed on any day is read back as itself |
| Clock.DivMod | server.py:194-198 | floor division and remainder, as `timedelta` normalises them, are unique |
| Clock.FormatTruncatesToSeconds | server.py:191-199 | the text for a timestamp is the elapsed time floored to whole seconds, written as `timedelta` prints it, followed by " ago" |
| Clock.FormatLastUpdateTime | server.py:191-199 | the text is "never" exactly when there is no timestamp |
| Clock.SinceText | server.py:194-199 | the text for an elapsed time always ends in " ago" |
| Clock.SinceTextSeconds | server.py:194-199 | the text for an elapsed time is its whole seconds (floored) written as `timedelta` prints them, followed by " ago" |
| Clock.FloorSplit | server.py:194-198 | `timedelta`'s days and seconds-of-day of an elapsed time are its whole seconds split into days and remainder |
| Clock.SinceTextIgnoresMicroseconds | server.py:194-198 | two elapsed times with the same whole seconds give the same text |
| Clock.SinceTextWithinADay | server.py:194-199 | below one day the text names exactly the elapsed whole seconds |
| Clock.ClockTextOf | server.py:195-199 | `H:MM:SS` of a time of day is its hours, then its minutes and seconds padded to two digits |
| Clock.ClockTextParses | server.py:195-199 | `H:MM:SS ago` reads back as its number of seconds |
| Clock.FormatMinuteExample | server.py:192-199 | no timestamp gives "never"; 90.5 seconds ago gives "0:01:30 ago" |
| Clock.FormatJustNow | server.py:191-199 | a timestamp taken now reads "0:00:00 ago" |
| Clock.FormatWithinASecond | server.py:191-199 | a timestamp read again less than a second later reads "0:00:00 ago" |
| Clock.SinceWithinASecond | server.py:194-199 | an elapsed time below one second reads "0:00:00 ago" |
| Clock.DayCountExamples | server.py:195-199 | one day is written "1 day, ...", two are written "2 days, ..." |
| Clock.ClockSkewExample | server.py:194-199 | a timestamp one second in the future reads "-1 day, 23:59:59" |
| Store.Str | store.py:25-26 | `str()` of a loaded value; a string loads as itself |
| Store.Dumped | store.py:33-34 | the dumped file has the cache's keys, each with its cache string |
| Store.ReloadDumped | store.py:22-34 | loading what `set` dumped gives back exactly the cache that was dumped |
| Store.LoadCache | store.py:25-26 | the constructor's loop loads every key of the file, with its value stringified, and no other key |
| Store.FileStore.constructor | store.py:15-26 | a missing file is created holding `{}`; the cache is loaded from the file's dict |
| Store.FileStore.Get | store.py:28-29 | `get` returns the cached value and raises KeyError exactly when the key is absent |
| Store.FileStore.Find | store.py:28-29 | the lookup the `Optional[str]` signature promises: None exactly where `get` raises |
| Store.FileStore.Set | store.py:31-34 | after `set(k, v)`, `get(k)` is `v` and every other key is unchanged; the cache changes even when the write fails; a written file equals the whole dumped cache; a failed open leaves the file untouched, a failed dump leaves it corrupt |
| Store.Open | store.py:15-26 | constructing a store raises JSONDecodeError exactly when the file is not JSON; a missing file gives an empty cache and the file `{}` |
| Renderer.IconMapKeys | renderer.py:13-32 | `ICON_MAP` has exactly the eighteen listed codes |
| Renderer.IconMapDomain | renderer.py:13-32 | a code is in `ICON_MAP` exactly when it is a condition number (01, 02, 03, 04, 09, 10, 11, 13, 50) followed by d or n |
| Renderer.KeysAreIconCodes | renderer.py:13-32 | every key of `ICON_MAP` is a condition number followed by d or n |
| Renderer.IconCodesAreKeys | renderer.py:13-32 | every condition number followed by d or n is a key of `ICON_MAP` |
| Renderer.IconGlyphs | renderer.py:13-32 | every glyph is one character; day and night of 03, 04, 09, 10, 11, 13 share a glyph, those of 01, 02, 50 differ |
| Renderer.Glyph | renderer.py:70 | the lookup succeeds exactly for a string code in the map, giving its one-character glyph; an unknown code raises KeyError with the code |
| Renderer.Capitalised | renderer.py:81-82 | the description keeps its length, its first character goes through `Upper` (ASCII letters only) and the rest is unchanged; an empty description raises IndexError, and anything other than a string raises |
| Renderer.Hour12 | renderer.py:66 | `%I` is an hour from 1 to 12 congruent to the 24-hour hour modulo 12 |
| Renderer.TimeTextShape | renderer.py:66 | the cleaned clock text is the unpadded hour, ":", the padded minutes and AM/PM: only the hour's leading zero is removed, and the text never starts with '0' |
| Renderer.StripHourZero | renderer.py:66 | `lstrip("0")` of a padded 12-hour hour removes exactly its leading zero |
| Renderer.NoSpaceZero | renderer.py:66 | the text `H:MM AM` contains no " 0", so the `replace` leaves it alone |
| Renderer.MorningTimeExample | renderer.py:66 | 9:05 is printed "09:05 AM" and cleaned to "9:05 AM" |
| Renderer.NoonTimeExample | renderer.py:66 | 12:05 is printed "12:05 PM" and left unchanged |
| Renderer.RenderOneCall | renderer.py:66-84 | a document of the expected shape renders its own glyph, main text, reading and capitalised description; it fails exactly for an unknown icon (KeyError with the code) or an empty description (IndexError) |
| Renderer.OneCallPaths | renderer.py:69-81 | the four subscript chains of `render` find the document's own fields |
| Renderer.DailyPath | renderer.py:69-72 | `[0]["weather"][0]` on a one-entry list reaches that entry's weather |
| Renderer.DailyField | renderer.py:69-72 | `["daily"][0]["weather"][0][field]` finds the field of the first day's first weather entry |
| Renderer.CurrentPaths | renderer.py:74-81 | `["current"]["temp"]` and `["current"]["weather"][0]["description"]` find the document's reading and description |
| Renderer.Renderer.constructor | renderer.py:44-60 | the text fields start empty and no motd attribute exists |
| Renderer.Renderer.Render | renderer.py:62-84 | the image is the document's drawing, the first failing lookup's exception winning; the fields are assigned in source order, so a failure leaves earlier fields updated and later ones as they were; the motd is not touched |
| Renderer.Renderer.RenderAsWritten | renderer.py:62-63 | as written, `render` raises AttributeError on the decoded document it is given, and changes nothing |
| Renderer.DecodeResponse | renderer.py:63 | no decoded JSON value has a `decode` method |
| Renderer.RenderAsWrittenRefusesDocuments | renderer.py:62-63 | a document that the corrected renderer draws is refused by `render` as written |
| Poller.StoredOf | server.py:83-94 | a recorded outcome is a DNS error exactly when the fetch failed on DNS, and a document exactly when it succeeded |
| Poller.FetchTransition | server.py:80-97 | a success or a first failure is recorded; a DNS failure while a DNS error is stored exits with status 1, and only then |
| Poller.Fetch | server.py:80-97 | an exiting fetch leaves the state as it was |
| Poller.RunWithoutRepeat | server.py:99-107 | without two DNS failures in a row, every fetch is recorded, and the state is the last outcome with the last fetch time |
| Poller.RunStopsAtFirstRepeat | server.py:89-105 | the first DNS failure that repeats ends the poller with status 1; the second error is not recorded and `last_fetched_at` not updated |
| Poller.FirstRepeat | server.py:104-107 | among several repeated DNS failures there is a first one |
| Poller.PollExits | server.py:80-107 | the poller exits exactly when a DNS failure directly follows another, then with status 1 at the first such fetch, keeping the state recorded before it |
| Poller.FreshPollerFetchesTwice | server.py:89-93 | starting from the initial empty document, the first fetch never exits |
| Poller.RunSnoc | server.py:104-107 | one more fetch continues the run by exactly one step |
| Poller.ExitIsFinal | server.py:93-104 | once the poller has exited, later fetch outcomes change nothing |
| Poller.ScheduleCounts | server.py:99-107 | the poller's events up to its n-th fetch hold exactly n fetches, one barrier wait from the second fetch on, and n-2 sleeps from the third fetch on |
| Poller.CountsStep | server.py:100-107 | one more fetch adds one fetch, and before it the barrier (second fetch) or a sleep (later fetches) |
| Poller.StartupSchedule | server.py:100-105 | the first fetch comes before the barrier, and the second fetch follows the barrier with no sleep between |
| Poller.FirstSleep | server.py:99-107 | the poller's events up to its n-th fetch include a sleep exactly when n is at least three |
| Poller.StartupDnsFailures | server.py:89-105 | two DNS failures at startup exit after the second fetch, with the events fetch, barrier, fetch and no sleep, keeping the first error |
| Poller.ProcessAsWritten | server.py:86-93 | as written the process never terminates: after the exit the poller stops and the server keeps serving |
| Poller.IntendedTermination | server.py:86-93 | as intended the process terminates, with status 1, exactly when a DNS failure repeats |
| Poller.StaleDnsErrorAsWritten | server.py:86-93 | after two DNS failures at startup, as written the server serves the first DNS error with no poller whatever follows; as intended it terminates with status 1 |
| Server.Device.Update | server.py:129 | a push adds the image to what the display has shown |
| Server.PushOf | server.py:123-129 | one update pushes at most one image |
| Server.Raised | server.py:114-117 | an update counts as passed exactly when it did not raise |
| Server.Pushed | server.py:113-129 | the render loop pushes at most one image per iteration |
| Server.NightShowsScreensaver | server.py:123-130 | with a device, night-time updates push the screensaver whatever the fetch state, and each sets `screen_updated_at` |
| Server.ErrorByDayPushesNothing | server.py:114-130 | with a device, an exception stored and daytime, every update raises UnboundLocalError: nothing is pushed and `screen_updated_at` keeps its value |
| Server.NoDeviceStillUpdates | server.py:123-130 | without a device nothing is pushed and every update sets `screen_updated_at` |
| Server.ForecastTextOf | server.py:171-174 | the page shows the exception's text exactly when an exception is stored |
| Server.MotdText | server.py:185 | the page shows the renderer's motd, or "" when none has been assigned |
| Server.MotdTextAsWritten | server.py:185 | as written, reading an unassigned motd raises AttributeError |
| Server.StartupMotd | server.py:63-65 | the renderer gets the stored motd exactly when it is a non-empty string |
| Server.StartupMotdAsWritten | server.py:63-65 | as written, startup raises whatever `store.get` raises, and otherwise behaves as the corrected step |
| Server.EmptyMotdBreaksPages | server.py:185 | a stored empty motd leaves the renderer's motd unassigned, so every page as written raises AttributeError, where the corrected page shows "" |
| Server.Context.constructor | server.py:21-38 | a new context holds the empty document and no timestamps |
| Server.Context.FetchForecast | server.py:80-97 | the context takes the transition's outcome: a recorded outcome and `last_fetched_at` = now, or on exit nothing changes |
| Server.Context.PollFetcher | server.py:99-107 | the loop's final state and exit are those of the trace run, and its events are the schedule up to the last fetch made |
| Server.Context.UpdateScreen | server.py:121-130 | the update raises, pushes and sets `screen_updated_at` as the screen decision says: no push without a device, and the timestamp only when nothing raised |
| Server.Context.RenderLoop | server.py:109-119 | every exception is caught: one outcome per iteration; the display shows exactly the images pushed; `screen_updated_at` is the last iteration that did not raise |
| Server.Context.SetMotd | server.py:40-43 | the store is written first; on failure the renderer's motd and `motd_updated_at` keep their values, otherwise both are set |
| Server.Context.LatestPage | server.py:170-186 | the page shows the three "time since" texts of the context's timestamps, the stored forecast or exception, and the motd ("" when none) |
| Server.Context.LatestPageAsWritten | server.py:170-186 | as written the page raises exactly while the renderer's motd is unassigned |
| Server.Context.PostMotd | server.py:148-158 | a form without `motd` is a 400 changing nothing. With the field, the cache takes the new motd whatever the write does. A failed write is a 500 that keeps the renderer's motd and its stamp; a failed open leaves the file as it was, a failed dump leaves it corrupt. A successful write sets the renderer's motd and the stamp, and the file holds the dumped cache. The page is read at its own instant: it shows the new motd and the time since the stamp, which reads "0:00:00 ago" when the page is read within the same second |
| Server.Context.DeleteMotd | server.py:152-158 | the same with the motd "": after a successful write the renderer's motd is the empty string (assigned, so the page as written no longer raises), the stamp is the set instant, the file holds the dumped cache, and the page shows "" |
| Server.Context.ChangeMotd | server.py:156-158 | `set_motd` at one instant, then the latest page at a second instant. It gives the cache, the renderer's motd, the stamp and the file for each write outcome, and the page's motd and "time since" text for the two readings; after a successful write the page as written succeeds |
| Server.Context.Preview | server.py:160-168 | an exception stored gives status 500 with its text without touching the renderer; otherwise the drawn forecast, or a 500 when drawing raises |
| Server.CreateApp | server.py:59-78 | startup fails exactly on a store file that is not JSON. On an existing file the store's cache is loaded from it, the file is kept, and the renderer's motd is the file's motd when that is non-empty. A fresh install has no motd |
| Server.CreateAppAsWritten | server.py:62-65 | as written, startup on a missing store file raises KeyError, and on an existing file succeeds exactly when it holds a motd. On success the store is loaded from the file, and the renderer's motd is the file's motd when non-empty |

## Left out

- Threads, the two-party `threading.Barrier` with its five-second timeout, daemon threads and `time.sleep`. Each loop runs alone over a trace of ticks. The interleaving of the poller, the render loop and the HTTP handlers is not modelled; in particular, the render loop sees a fixed fetch state.
- Flask routing, `render_template`, `send_file` and PNG encoding. A page is the tuple of values handed to its template. The `json.dumps` text of the forecast, `image_ts`, `fetch_url` and the display height are not modelled.
- The fetchers: an outcome says directly whether the fetch raised a `socket.gaierror`. Whether a given library error is one is not modelled.
- PIL drawing and fonts: an image is the list of what would be drawn on it.
- The temperature text is floating point: `render` subtracts 273.15 and converts to Celsius or Fahrenheit. The image carries the reading as fetched. The configured `OpenWeatherFetcher` asks for imperial units by default (fetchers.py:21), so that reading is in Fahrenheit although `render` treats it as Kelvin; the model does not convert it. JSON numbers are whole numbers.
- The screensaver's random star placement: the screensaver image is the constant `Stars`.
- The display driver, the terminal surface and settings. Display pushes always succeed.
- `datetime.now()`: the clock is passed in, in microseconds of local time, without daylight-saving changes.
- Server.Context.UpdateScreen, Server.Context.RenderLoop and Server.Context.LatestPage: one clock reading per call stands for the several the code makes. `update_screen` reads the clock for `is_night()`, for the time text inside `render` and for the stamp. `render_latest` reads it for `image_ts` and once more in each `format_last_update_time` call. Instants that differ between these reads within one call are not modelled.
- Store files holding floating-point numbers (whose `str()` would be e.g. "1.5"), nested lists or dicts, or a top-level value that is not a dict. The constructor's own I/O errors (permissions, a full disk) are also left out.
- `Renderer.motd` is not drawn by `render`, so the model's `Render` ignores it.
- Py.Upper: only ASCII letters change case; Python's full Unicode case mapping is not modelled.
- Py.LStrip: the contract states the length bound and the first character, not the exact suffix kept. The exact behaviour on the clock text is proved in Renderer.StripHourZero.
- Server.ScreenUpdate, Server.LastScreenUpdate and Poller.Run are specification functions. Their properties are stated by the lemmas and methods that use them (Server.NightShowsScreensaver, Poller.PollExits and others).
- Poller.Schedule, Clock.IsNight, Clock.TimedeltaText, Clock.ClockText, Clock.WholeSecondsText, Renderer.Draw, Renderer.Strftime, Renderer.CleanTimeText, Renderer.TimeText, Py.Replace and Py.Path are specification functions too. Their properties are stated by Poller.ScheduleCounts and Poller.StartupSchedule (the poller's events); Clock.DaytimeWindow and Clock.NightBoundaries (`is_night`); Clock.ClockTextOf, Clock.SinceTextSeconds and the day-count examples (`str(timedelta)`); Renderer.RenderOneCall and Renderer.Renderer.Render (`render`'s lookups); Renderer.TimeTextShape, Renderer.StripHourZero and Renderer.NoSpaceZero (the clock text); Py.ReplaceAbsent; and Renderer.DailyPath, Renderer.DailyField and Renderer.CurrentPaths (the subscript chains).

## Findings

| source | as written | input that shows it | evidently intended | confidence | as-written member | corrected member |
|---|---|---|---|---|---|---|
| renderer.py:62-63 | `render` starts by calling `.decode("utf-8")` on its argument, but both callers (server.py:128 and server.py:164) pass the dict that `fetch()` already decoded, so it raises AttributeError | any fetched document, e.g. daily icon "01d", main "Clear", temp 293, description "clear sky" | render the decoded document directly | not executed; high | Renderer.Renderer.RenderAsWritten | Renderer.Renderer.Render |
| server.py:93 | `sys.exit(1)` runs in the poller's daemon thread (server.py:138), where SystemExit ends only that thread: the server keeps running, nothing fetches again, and the DNS error is served forever | two DNS failures at startup | end the process with status 1 so that the service manager restarts it, as the comment at server.py:86-88 says | not executed; high | Poller.StaleDnsErrorAsWritten | Poller.IntendedTermination |
| server.py:63 | `store.get` raises KeyError for an absent key (store.py:29), and `create_app` calls it unguarded, so startup fails on a fresh install | a missing store file (the store is created empty) | treat a missing motd as none, as the `Optional[str]` signature of `get` and the `if motd:` test suggest | not executed; high | Server.CreateAppAsWritten | Server.CreateApp |
| server.py:185 | `Renderer` never creates a `motd` attribute, and `create_app` assigns it only for a non-empty stored motd, so `render_latest` raises AttributeError | a store file holding `{"motd": ""}` (after DELETE /motd and a restart) | show "" when no motd was set, as `or ""` intends | not executed; high | Server.EmptyMotdBreaksPages | Server.Context.LatestPage |
