# MMM-SNCF in Dafny

A model of the two pieces of logic in the MMM-SNCF MagicMirror module: a timetable display for SNCF trains.

- **Back-end helper** (`node_helper.js`). It normalises one journey-search response into a flat list of transport records. It also keeps the polling state: `started`, `loaded`, the stored configuration and the single interval timer.
- **Front-end module** (`MMM-SNCF.js`). It adapts its configuration to the mode in `start` and takes a TRAINS notification only when the ids match. In `getDom` it decides what to show. Here those decisions return abstract tags, not HTML: "loading" or "no_route", and for each row the name, date and status cells. They also pick the header columns.

Files, one module each:

- `wrappers.dfy`: `Option`. `None` stands for a JavaScript `undefined`.
- `settings.dfy`: the configuration object and the front-end defaults. The front-end owns this object and sends it whole as the CONFIG payload.
- `js_strings.dfy`: `lastIndexOf`, one-argument `substring`, and the two date-cutting rules built from them.
- `node_helper.dfy`: the normaliser as specification functions with lemmas, plus the class `Helper`. Its methods run the source's nested loops and state changes.
- `display_rules.dfy`: the pure decision rules of `getDom`. A property read on `undefined` is `Throws`, standing for JavaScript's TypeError.
- `mmm_sncf.dfy`: the class `SncfModule`, with `start`, the TRAINS handler and `getDom` as a loop over the list.
- `handoff.dfy`: how the renderer treats the records the back-end actually sends.

What the model brings out about the code:

- **The `dateTheorique` cut.** `dateTheorique` is cut at the position of the last space in the *amended* departure time, not in its own string (node_helper.js:105). `CutAtSpaceOf` keeps that behaviour. `CutAgreesWhenSpacesAlign` gives a condition, sufficient but not necessary, under which the result matches the base string's own cut. `CutCanKeepASpace` gives one kind of input where it does not.
- **Undefined `trainsdisplayed`.** `trainsdisplayed` is not among the front-end defaults. When it is undefined, `count` stays undefined and `i < undefined` is false, so the list is empty (`UndefinedCountGivesNothing`).
- **Missing `journeys`.** When the body has no `journeys`, the list has already been reset to empty and the method then throws. `ProcessTransports` models this with `ok == false`.
- **Records the renderer cannot draw.** The back-end's records have no `disruptionInfo` member. The status cell tests `disruptionInfo !== null` and then reads `.cause`, so it throws (`BackendRecordCells`). In journey mode `start` turns the status column on, so any non-empty list from the back-end makes `getDom` throw (`BackendListRendering`).
- **No `id` in the payload.** The back-end's TRAINS payload has no `id`. The front-end therefore takes it only when its own `config.id` is undefined too (`DeliveredIffNoId`).
- **Walking legs.** The code drops walking legs. It does not turn them into "waiting" records. The code is followed here (`NoRecordIffAllWalking`, `WalkThenTrainTwice`). The delay, disruption, physical-mode and type members that the renderer reads are not produced by the back-end, and the model does not invent them.
- **Record building.** `ProcessTransports` takes the record builder (which includes the `moment` formatter) as a parameter. `UpdateTimetable` passes `RecordBuilder(format)`, so its contract is stated with `Normalize`. The lemmas about the shape of the list hold for any builder. `NormalizedRecord` spells out the fields of the records `Normalize` builds.
- **Retry delay.** The retry branch reads `this.config.retryDelay` inside a plain `function(r)` callback, where `this` is not the helper. The intended `self.config.retryDelay` is modelled (`RetryPeriod`).

## Model

| member | source | states |
|---|---|---|
| `JsStrings.LastIndexOf` | node_helper.js:104 | the result is -1 exactly when the character is absent; otherwise it is a position holding the character, with no occurrence after it |
| `JsStrings.Substring` | node_helper.js:104-105 | the result is a suffix of the string; its length is the string's length minus a start that lies in range; a negative start gives the whole string and a start past the end gives the empty string |
| `JsStrings.AfterLastSpace` | node_helper.js:104 | the result is a space-free suffix of the string; when the string has a space, the character just before the result is a space; without a space the result is the whole string |
| `JsStrings.CutAtSpaceOf` | node_helper.js:105 | the result is the suffix of the base string that starts just after the last-space position of the amended string: the whole base when the amended string has no space, otherwise the base shortened by that position plus one, clamped at empty |
| `JsStrings.CutAgreesWhenSpacesAlign` | node_helper.js:104-105 | when both strings have their last space at the same position, the as-written cut equals the base string's own after-last-space cut |
| `JsStrings.CutCanKeepASpace` | node_helper.js:105 | whenever the amended time has no space but the base time has one, the as-written cut keeps the whole base time, space included, which differs from the base's own cut |
| `NodeHelper.Record` | node_helper.js:102-108 | a record carries its journey's status as state, its leg's headsign as name, and the leg's duration in minutes as mode; its two dates are spelled out by `NormalizedRecord` |
| `NodeHelper.ProcessedCount` | node_helper.js:83-89 | the loop visits min(trainsdisplayed, number of journeys) journeys; none when `trainsdisplayed` is undefined or negative; never more than there are journeys |
| `NodeHelper.Vehicles` | node_helper.js:95-97 | the reference filter: the kept legs are no more than the sections, and none of them is walking |
| `NodeHelper.SectionRecords` | node_helper.js:95-109 | a definition with no contract of its own: the records the inner loop pushes for one journey. It is characterised by `SectionRecordsAreVehicles`, `SectionRecordsSnoc`, `NoRecordIffAllWalking` and `SectionOrigin` |
| `NodeHelper.JourneyRecords` | node_helper.js:89-113 | a definition with no contract of its own: the records the outer loop pushes, journey after journey. It is characterised by `JourneyRecordsSnoc`, `JourneyRecordsAppend`, `JourneyRecordsCount` and `RecordOrigin` |
| `NodeHelper.Normalize` | node_helper.js:83-113 | a definition with no contract of its own: the list `processTransports` leaves, i.e. the records of the first `count` journeys. It is characterised by `NormalizeBound`, `BeyondCountIgnored`, `UndefinedCountGivesNothing` and `NormalizedRecord` |
| `NodeHelper.VehiclesAppend` | node_helper.js:95-97 | filtering distributes over concatenation, so no leg is reordered or merged |
| `NodeHelper.VehiclesSingle` | node_helper.js:97 | a single leg is kept exactly when its mode is not "walking" |
| `NodeHelper.SectionRecordsAreVehicles` | node_helper.js:95-109 | the inner loop yields exactly one record per non-walking leg: the k-th record is built from the k-th kept leg |
| `NodeHelper.SectionRecordsSnoc` | node_helper.js:95-109 | one more section adds its record at the end of the list, or nothing if it is walking |
| `NodeHelper.JourneyRecordsSnoc` | node_helper.js:89-113 | one more journey appends its own records after those of the earlier journeys |
| `NodeHelper.NoRecordIffAllWalking` | node_helper.js:95-109 | a journey contributes no record exactly when all of its sections are walking |
| `NodeHelper.JourneyRecordsAppend` | node_helper.js:89-113 | the records of a concatenation of journeys are the concatenation of their records: journey order first, then section order |
| `NodeHelper.JourneyRecordsCount` | node_helper.js:89-110 | the number of records equals the number of vehicle legs, which is at most the number of sections |
| `NodeHelper.NormalizeBound` | node_helper.js:83-110 | the output has at most as many records as the visited journeys have sections |
| `NodeHelper.BeyondCountIgnored` | node_helper.js:83-89 | journeys after the first `trainsdisplayed` ones do not change the output |
| `NodeHelper.UndefinedCountGivesNothing` | node_helper.js:83-89 | with `trainsdisplayed` undefined the output is empty for any response; the declared defaults (MMM-SNCF.js:13-31) leave it undefined, so they give an empty list too |
| `NodeHelper.SectionOrigin` | node_helper.js:95-108 | each record of a journey was built from a non-walking section of that journey |
| `NodeHelper.RecordOrigin` | node_helper.js:89-108 | each record of the list was built from a non-walking section of one of the journeys, with that journey's status |
| `NodeHelper.NormalizedRecord` | node_helper.js:99-107 | each output record has its visited journey's status as state and its leg's headsign as name; its date is the formatted after-last-space text of the departure time; its dateTheorique is the formatted base time cut at that same position; its mode is the duration in minutes |
| `NodeHelper.WalkThenTrain` | node_helper.js:95-109 | one journey made of a walk and then a train gives the train's record alone |
| `NodeHelper.WalkThenTrainTwice` | node_helper.js:89-110 | two walk-then-train journeys with room for five give exactly the two train records, in journey order |
| `NodeHelper.NextPeriod` | node_helper.js:127-131 | the delay is used when it is defined and positive; otherwise the period is `updateInterval` |
| `NodeHelper.RetryPeriod` | node_helper.js:67-70 | after an error the period is `updateInterval` once data was loaded; before that it is `retryDelay` when positive, otherwise `updateInterval` |
| `NodeHelper.Helper.constructor` | node_helper.js:28-33 | a new helper is not started, has nothing loaded, no configuration, no timer and has sent nothing |
| `NodeHelper.Helper.ScheduleUpdate` | node_helper.js:126-138 | the one timer slot now holds the period chosen from the delay and `updateInterval`, replacing any earlier timer |
| `NodeHelper.Helper.PushSections` | node_helper.js:95-109 | the inner loop appends to the list exactly the records of the journey's non-walking legs, in order (`SectionRecords`) |
| `NodeHelper.Helper.ProcessTransports` | node_helper.js:77-119 | the list is reset; with journeys present it becomes the records of the first `count` journeys, `loaded` is set and the list is sent; without journeys the list stays empty and `loaded` and the sent notifications are unchanged |
| `NodeHelper.Helper.UpdateTimetable` | node_helper.js:58-71 | called only once started, as the timer exists only after CONFIG; on an error the list, `loaded` and the sent notifications are unchanged and the timer gets the retry period; on a response the timer is untouched and the list is the normalised list; the invariant (which includes "loaded only once started") is preserved |
| `NodeHelper.Helper.SocketNotificationReceived` | node_helper.js:140-152 | the first CONFIG stores the configuration, sets `started` and starts the timer with the initial load delay; any later or other notification changes nothing |
| `DisplayRules.ModeIcon` | MMM-SNCF.js:123-159 | a mode has an icon exactly when it is one of the listed modes: the plane for Air, the bus icon for the bus family, the subway icon for Metro, the taxi icon for Taxi, the train icon for the train family and RER, and the ship icon for ferries and boats |
| `DisplayRules.NameCellOf` | MMM-SNCF.js:118-162 | a walking icon exactly for "waiting"; otherwise the line code for the bus family and RER, the headsign for the other icon modes, and code plus headsign with no icon for SuspendedCableCar, Funicular, unknown or undefined modes |
| `DisplayRules.DateCellOf` | MMM-SNCF.js:167-178 | the plain date exactly when `delay` is undefined; with a delay, always the original date, followed by the amended time only when `disruptionInfo` is an object with that member; it throws when `disruptionInfo` is undefined |
| `DisplayRules.StatusLabelOf` | MMM-SNCF.js:204-231 | the exhaustive case table: "waiting" for transfers; clock and delay for SIGNIFICANT_DELAYS with a positive delay, a warning otherwise; "deleted" for NO_SERVICE; a warning for the six fall-through states; empty for an undefined state; "on_time" for any other state |
| `DisplayRules.CauseLine` | MMM-SNCF.js:233-235 | a cause line appears exactly when `disruptionInfo` is an object with a cause; reading an undefined `disruptionInfo` throws |
| `DisplayRules.StatusCellOf` | MMM-SNCF.js:200-237 | the status cell throws exactly when `disruptionInfo` is undefined; otherwise it holds the label and the cause line |
| `DisplayRules.HeaderOfMembers` | MMM-SNCF.js:261-309 | a column is in the header built from a column list exactly when it is listed and its toggle is on |
| `DisplayRules.HeaderOfSpec` | MMM-SNCF.js:261-309 | the header built from a ranked column list is ranked and holds exactly those listed columns whose toggle is on |
| `DisplayRules.HeaderOf` | MMM-SNCF.js:261-309 | a definition with no contract of its own: the header cells for a column list. It is characterised by `HeaderOfMembers` and `HeaderOfSpec` |
| `DisplayRules.HeaderColumns` | MMM-SNCF.js:261-309 | departure is always present; every other column is present exactly when its toggle is on; the order is type_transport, departure, duration, destination, status, type, c02 |
| `DisplayRules.CellFor` | MMM-SNCF.js:118-256 | a row has one cell in a column exactly when the column's toggle is on and the member it shows is defined; that cell belongs to that column and holds what the column shows: the name cell of `NameCellOf`, the given date cell, the given status cell, or the member's own value |
| `DisplayRules.CellsFor` | MMM-SNCF.js:115-258 | a definition with no contract of its own: the cells appended for a column list, in order. It is characterised by `CellsForHas`, `CellsForInHeader`, `CellsForRanked` and `CellsForFill` |
| `DisplayRules.RenderRow` | MMM-SNCF.js:115-258 | a definition with no contract of its own: one row, or a throw from its date or status cell. It is characterised by `RowThrows`, `RowCells`, `RowFitsHeader` and `RowFillsHeader` |
| `DisplayRules.CellsForHas` | MMM-SNCF.js:115-258 | the cells a row gets for any listed column are among the cells for the whole list |
| `DisplayRules.RowCells` | MMM-SNCF.js:118-256 | a rendered row shows the date cell of `DateCellOf` always, the name cell of `NameCellOf` and the status cell of `StatusCellOf` when their toggles are on, and the duration, destination, type and CO2 values themselves when their toggles are on and they are defined |
| `DisplayRules.RowThrows` | MMM-SNCF.js:167-237 | a row throws exactly when `disruptionInfo` is undefined and the row either has a delay or shows the status column |
| `DisplayRules.CellsForInHeader` | MMM-SNCF.js:118-309 | every cell built for a list of columns sits under a column of the header built from the same list |
| `DisplayRules.CellsForRanked` | MMM-SNCF.js:118-309 | the cells built for a ranked column list have their columns in that same rank order |
| `DisplayRules.CellsForFill` | MMM-SNCF.js:118-309 | when every member the listed columns show is defined, the row's columns are exactly the header built from the same list |
| `DisplayRules.AllCellsFit` | MMM-SNCF.js:118-309 | the cells for all columns, in `getDom`'s order, are ranked and each sits under a header column |
| `DisplayRules.RowFitsHeader` | MMM-SNCF.js:112-309 | the cells of a rendered row follow the header order, and each cell sits under a column of the header |
| `DisplayRules.RowFillsHeader` | MMM-SNCF.js:182-309 | when duration, destination, journey type and CO2 are defined, a rendered row's columns are exactly the header's |
| `DisplayRules.Collect` | MMM-SNCF.js:112-259 | evaluating outcomes in order throws exactly when one of them throws; otherwise it yields every value, one per outcome, in order |
| `DisplayRules.RenderRows` | MMM-SNCF.js:112-259 | rendering the rows throws exactly when some row throws; otherwise there is one row per transport, in list order |
| `DisplayRules.RowAborts` | MMM-SNCF.js:112-259 | one row that throws makes the whole rendering throw |
| `DisplayRules.CollectRendered` | MMM-SNCF.js:112-259 | outcomes that all render give exactly their values, in order |
| `DisplayRules.RowsOfRendering` | MMM-SNCF.js:112-259 | rows that match the transports one for one are the rendering of the list |
| `DisplayRules.RenderView` | MMM-SNCF.js:92-320 | a definition with no contract of its own: what `getDom` shows. It is characterised by `ViewCases` |
| `DisplayRules.ViewCases` | MMM-SNCF.js:92-320 | "loading" exactly when nothing is loaded; "no_route" exactly when loaded with an empty list; a throw exactly when loaded and some row throws; otherwise a table of one row per transport in order, with the header columns when headers are on |
| `MirrorModule.ApplyMode` | MMM-SNCF.js:72-83 | mode 1 turns off C02, duration, peculiarities and type; any other mode turns on peculiarities and keeps those three; all other fields unchanged in both cases |
| `MirrorModule.Accepts` | MMM-SNCF.js:330 | a definition with no contract of its own: TRAINS with an id strictly equal to the configured one. `SncfModule.SocketNotificationReceived` and `Handoff.DeliveredIffNoId` state its effect |
| `MirrorModule.SncfModule.constructor` | MMM-SNCF.js:9-10 | a registered module keeps its configuration, has an empty list, nothing loaded and no timer |
| `MirrorModule.SncfModule.Start` | MMM-SNCF.js:47-89 | the configuration becomes its mode-adapted version and is sent as CONFIG; `loaded` is false and the timer null; the list is unchanged |
| `MirrorModule.SncfModule.SocketNotificationReceived` | MMM-SNCF.js:323-337 | a TRAINS payload whose id equals the configured id replaces the list and sets `loaded`; anything else leaves both unchanged |
| `MirrorModule.SncfModule.GetDom` | MMM-SNCF.js:92-320 | the loop builds row k from transport k and stops at the first row that throws, which yields exactly the view `RenderView` describes (see `ViewCases`) |
| `Handoff.AsView` | node_helper.js:102-108 | the renderer sees a back-end record's date and state; type, physical mode and delay are undefined, and so is `disruptionInfo` |
| `Handoff.BackendPayload` | node_helper.js:116-118 | the TRAINS payload has no id and carries the records in order |
| `Handoff.DeliveredIffNoId` | MMM-SNCF.js:330-333 | the front-end accepts the back-end's payload exactly when its own id is undefined |
| `Handoff.BackendRecordCells` | MMM-SNCF.js:122-235 | a back-end record shows no icon with code and headsign, and its plain date; its row throws exactly when the status column is shown |
| `Handoff.BackendListRendering` | MMM-SNCF.js:72-83 | after `start` in journey mode, a non-empty back-end list makes `getDom` throw; in departure mode it renders one row per record |

## Left out

- The HTTP request is left out: the URL built with the current time, the `Authorization` header and `unirest` (node_helper.js:38-57). This is network I/O and wall-clock time. `UpdateTimetable` takes the request's outcome as its `response` parameter.
- `moment(...).format('llll')` is a function parameter `format` with no interpretation. Parsing and formatting dates are not modelled.
- Timers are reduced to the period held in the one timer slot. When `setInterval` fires and how often, and its handling of periods of zero or below, are not modelled.
- `mode: duration/60` is exact rational division (`real`). JavaScript's floating-point rounding is not modelled.
- `btoa` is not modelled (node_helper.js:13-24). It is unused.
- Logging, the DOM and HTML strings, CSS class names (including the row's state and `endOfJourney` classes), translations, `updateDom`, and the `Module.register`/`NodeHelper.create` host glue are not modelled. Cells are abstract tags.
- The backward-compatibility block is not modelled (MMM-SNCF.js:52-70). It sits inside a comment.
- The merge of the user's settings with the front-end defaults is done by the host and is not modelled. `Settings.Defaults` records the declared defaults, except `animationSpeed`, `debugging`, `lang`, `dateFormat`, `numberDays` and `maxNbTransfers`. They feed only logging and `updateDom` (MMM-SNCF.js:50,325,335), the commented-out block (MMM-SNCF.js:63), or nothing.
- Malformed journeys are not modelled: a null journey, a journey without `sections`, or a vehicle section without `display_informations`. Each throws in the middle of the loop and leaves a partial list. Journeys are taken as well-formed, so the `nextTrain !== undefined` guard always holds.
- `LastIndexOf` and `Substring` count Dafny characters, while JavaScript's `lastIndexOf` and `substring` count UTF-16 code units. They agree on text without characters outside the Basic Multilingual Plane. With such a character the index taken from one string and applied to the other (node_helper.js:105) can land elsewhere in JavaScript; the model does not capture that.
- The model does not capture JavaScript's coercion of non-string date-times by `'' + x`, for example "undefined".
- `state` has no separate null value: `None` is `undefined`. A null state would fall into the `default` branch ("on_time"), not into `case undefined`. The helper copies `nextTrain.status` unchanged (node_helper.js:107), so a JSON null from the API would reach the renderer; the model cannot represent that value.
- If the helper's `socketNotificationReceived` runs before `start`, the model does not capture the result: `started` is then undefined and `== false` fails. The constructor plays the role of `start`.

## What the code does not do that a reader might expect

- Walking legs do not become "waiting" records, and there is no classifier for delay, disruption and state. The front-end has rendering branches for both, but the back-end has neither: it drops walking legs and copies the journey's `status` as `state`. The model follows the code.
- The first poll does not happen at once with the default `initialLoadDelay` of 0: `scheduleUpdate` treats a delay of 0 like no delay, so the first poll waits a full `updateInterval` (node_helper.js:129,150; `NextPeriod`).
- A successful poll does not restore the normal interval. After a failed first fetch the timer runs at `retryDelay`, and later successes leave it there, because only the error branch reschedules (node_helper.js:67-69; `UpdateTimetable` keeps `timer` on a response).
- The front-end compares the TRAINS payload's `id` with its own, but the back-end's payload has no `id` at all (`Handoff.BackendPayload`).
