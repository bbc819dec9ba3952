# Machine voltage / amperage monitor — Dafny model

This project models the core of a small factory monitor. It has two parts.

- **Acquisition server** (`server/server.js`):
  - keeps one telemetry record per configured machine;
  - polls each machine's PLC for a block of 41 holding registers starting at address 2000;
  - decodes the block into a run/stop mode, a lot name, the voltage and amperage standards, six voltage and six amperage channels and their averages;
  - serves the record as JSON.
- **Browser monitor** (`client/js/main.js`, `ui.js`, `charts.js`, `api.js`):
  - draws a dashboard of machine cards grouped by department;
  - for one open machine, keeps:
    - a 20-row history table, newest on top;
    - an alarm log with a counter badge;
    - a five-row recent-alarms table;
    - two live charts (average voltage and average amperage), limited to 20 points.

The modules follow the program's structure:

| file | module | models |
|---|---|---|
| config.dfy | `Config` | the constants of `client/js/config.js` and `server/server.js` |
| telemetry.dfy | `Telemetry` | the JSON record the server sends (`Reading`), a generated backlog row, JavaScript strings as UTF-16 code units |
| bounded.dfy | `Bounded` | the two bounded-list disciplines of the page: a table that prepends and drops its bottom row, and a series that appends and drops its first point; sums and means |
| registers.dfy | `Registers` | `registersToString` and `String.prototype.trim` |
| acquisition.dfy | `Acquisition` | the store (`globalData`) as a class over a map; one register block decoded into a record; `MachineConnection` as a class driven by promise and timer events |
| api.dfy | `Api` | the live route's response (record or 404 error object) and `fetchMachineData` as written, beside the checked fetch the monitor needs |
| alarms.dfy | `Alarms` | the alarm rules: the run-gated live rule, and the ungated band rule main.js applies to generated backlog |
| charts.dfy | `Charts` | the two Chart.js objects and their labels arrays, with real object aliasing of the shared labels array |
| ui.dfy | `Ui` | the page: tables, badge, grids and view, as a class whose methods change them in place |
| session.dfy | `Session` | the module state of main.js and its handlers, over a `Page` and a `ChartPanel` |
| scenarios.dfy | `Scenarios` | a concrete register block decoded with the lot running and with the lot ended |

Units:

- Server values are kept as the raw register integers, which are hundredths of a volt or an ampere.
- Client values are real numbers.
- `ToReading` relates the two: the JSON value times 100 equals the register value.

Everything the program gets from outside becomes a parameter:

- fetch results: `Option<Reading>`, as the checked fetch `Api.FetchChecked` reads the live route's response. `None` stands for a failed request, a body that does not parse, or a status other than 200. The fetch as written (`Api.FetchMachineData`) resolves null only for the first two: a 404 resolves to the truthy error object (see "## Findings");
- the generated backlog rows;
- the clock;
- the registers a read returns.

Each timer is a boolean saying whether it is scheduled.

Where the code and its comments disagree, the model follows the code. The comments at `client/js/charts.js:157-165` are written as if the two charts had separate labels arrays. `initCharts` gives both charts one array (`client/js/charts.js:55,61,82`). The model keeps that aliasing and proves what follows from it:

- a tick on full series shifts the shared labels twice (`Charts.SharedLabelsShiftTwice`);
- a single live update with labels leaves 21 amperage labels (`Charts.SharedLabelsOverflow`).

## Model

| member | source | states |
|---|---|---|
| Registers.RegistersToString | server/server.js:49-58 | the loop returns exactly `Trim(Rendered(registers))`: zero registers skipped, others rendered in order, then trimmed |
| Registers.RenderOne | server/server.js:54-55 | a register 1..9 becomes the digit character '1'..'9'; any other non-zero register becomes the character with that code unit |
| Registers.RenderedAppend | server/server.js:51-56 | each register is rendered independently, left to right: rendering a concatenation is the concatenation of the renderings |
| Registers.ZeroRegisterSkipped | server/server.js:53 | a zero register contributes nothing wherever it sits |
| Registers.RenderedShape | server/server.js:51-56 | the rendered text has one character per non-zero register and never contains NUL |
| Registers.DigitCodesCollide | server/server.js:54-55 | register value 1 and register value 0x31 render the same lot text, so the lot name cannot tell them apart |
| Registers.Trim | server/server.js:57 | the trimmed text starts and ends with a non-space, is the slice that follows the leading spaces, and only spaces follow it |
| Registers.TrimExact | server/server.js:57 | trimming spaces around a core that neither starts nor ends with a space gives back exactly that core |
| Registers.AllZeroIsEmpty | server/server.js:49-58 | an all-zero lot region decodes to the empty lot name |
| Acquisition.InitialStoreShape | server/server.js:35-47 | the initial store has exactly the configured ids; each record keeps its own configuration and starts stopped, "CONNECTING...", with zero standards and averages and six zero channels of each kind |
| Acquisition.TelemetryStore.constructor | server/server.js:35-47 | the initialisation loop builds exactly `InitialStore(configs)`, a later duplicate id overwriting an earlier one; the configured ids are fixed as `Ids` and each record is filed under its own id |
| Acquisition.DecodeFields | server/server.js:89-116 | the decoded record (`Decode`): the machine runs iff register 40 is 1; if register 40 is 0 the lot is "LOT ENDED", otherwise registers 2..16 decoded as text (which may spell "LOT ENDED" too); standards from registers 0 and 1; six volts from 20..25 and six amps from 26..31; averages are the means of those same six channels; the configuration is kept |
| Acquisition.DecodeBlock | server/server.js:89-116 | the decoding steps of the read callback build exactly `Decode` of the block, the timestamp still the old one |
| Acquisition.TelemetryStore.ApplyRead | server/server.js:85-125 | the store keeps one record per configured id, each under its own id; the read machine's record becomes `Decode` of the block with the new timestamp and every other record is unchanged; the record is handed to the database exactly when the block says run, before the timestamp is set |
| Acquisition.TelemetryStore.MarkStopped | server/server.js:126-129 | a failed connect or read sets the record's mode to stop and changes nothing else, logs nothing; the store keeps one record per configured id |
| Acquisition.TelemetryStore.Live | server/server.js:145-150 | the live lookup is "Not found" exactly for ids that were never configured; otherwise it returns the record of the machine with that very id, in units |
| Acquisition.ToReading | server/server.js:98-110 | the JSON carries the record's id, mode and lot; every standard, channel and average is the register value divided by 100 |
| Acquisition.NeverReconnects | server/server.js:82-134 | once a connection has connected, any run of read outcomes and polling timers keeps it reading; it never calls `connect` again |
| Acquisition.Reschedules | server/server.js:67-133 | a successful or failed read schedules the next read after POLLING_RATE (60000 ms); a failed connect schedules a retry after 5000 ms; a successful connect schedules no timer |
| Acquisition.MachineConnection.constructor | server/server.js:61-65 | a new connection starts connecting at once |
| Acquisition.MachineConnection.OnConnectOk | server/server.js:70-74 | a resolved connect starts the first read |
| Acquisition.MachineConnection.OnConnectErr | server/server.js:75-79 | a rejected connect marks only this machine stopped and waits to retry |
| Acquisition.MachineConnection.OnRetryElapsed | server/server.js:78 | the retry timer leads back to connecting |
| Acquisition.MachineConnection.OnReadOk | server/server.js:85-125 | a resolved read replaces this machine's record by `Decode` of the block at the read time, leaves the other machines' records unchanged, logs the record when the block says run, and waits to poll |
| Acquisition.MachineConnection.OnReadErr | server/server.js:126-129 | a rejected read marks only this machine stopped and waits to poll; it does not reconnect |
| Acquisition.MachineConnection.OnPollElapsed | server/server.js:130-133 | the polling timer starts the next read |
| Alarms.EventsSound | client/js/ui.js:136-157 | every alarm over one row of channels names a channel of the row, numbered from 1, carries that channel's value, the standard and the time, and breaches the rule |
| Alarms.EventsComplete | client/js/ui.js:136-157 | every breaching channel of the row has its alarm |
| Alarms.EventsOrdered | client/js/ui.js:136-157 | the alarms over one row come in strictly ascending channel order |
| Alarms.VoltAlarmIff | client/js/ui.js:136-145 | voltage channel i raises an alarm iff the machine runs and the channel is more than 0.5 from the voltage standard |
| Alarms.AmpAlarmIff | client/js/ui.js:148-157 | amperage channel i raises an alarm iff the machine runs and the channel exceeds the amperage standard by more than 0.5 |
| Alarms.RowEventsSound | client/js/ui.js:136-157 | every alarm of a row names a real channel of its kind, with that channel's value and standard, and breaches the live rule |
| Alarms.RowEventsOrder | client/js/ui.js:136-157 | a row's alarms come voltage first, then amperage, each kind in ascending channel order |
| Alarms.StoppedRaisesNothing | client/js/ui.js:133-150 | a machine that is not running raises no alarm, whatever its values |
| Alarms.NothingWhenStopped | client/js/ui.js:138 | under the live rule with the machine stopped, no channel of either kind alarms |
| Alarms.BacklogDiffersFromLive | client/js/main.js:123-125 | every amperage channel more than 0.5 below the standard has its backlog alarm and no live alarm, whether the machine runs or not |
| Alarms.CardFlags | client/js/ui.js:39-45 | the card's voltage flag is set iff the machine runs and its average is more than 0.5 from the standard; the amperage flag iff it runs and its average exceeds the standard by more than 0.5 |
| Alarms.QuietChannelsQuietCard | client/js/ui.js:39-45 | when the averages are the channel means and no channel alarms, neither card flag is set |
| Alarms.HundredthsBand | client/js/ui.js:138 | on a served record, a running channel is out of band exactly when its register differs from the standard's register by more than 50 hundredths |
| Bounded.PushFront | client/js/ui.js:165-169 | within a table of at most cap rows, the new row goes on top and the old rows follow in order; the table grows by one row below cap and, once full, loses exactly its bottom row |
| Bounded.NewestFirst | client/js/ui.js:117-124 | the first min(n, cap) entries of a reversed sequence are its last entries, newest first |
| Bounded.PushFrontAllKeepsNewest | client/js/ui.js:210-214 | prepending a batch one entry at a time leaves the newest cap entries, newest first |
| Bounded.Slide | client/js/charts.js:128-139 | the new point is last; below cap the point is appended and nothing is lost; on a full series exactly the first point goes |
| Bounded.SlideAllKeepsNewest | client/js/charts.js:136-139 | sliding points in one at a time leaves the newest cap points, oldest first |
| Bounded.MeanWithin | client/js/charts.js:125 | the mean of a batch lies within any range that holds every value of the batch |
| Charts.ChartPanel.constructor | client/js/charts.js:3-4 | before any chart is created both chart variables are null |
| Charts.ChartPanel.DestroyCharts | client/js/charts.js:35-44 | both chart variables become null |
| Charts.ChartPanel.InitCharts | client/js/charts.js:46-101 | two new charts with empty data share one new labels array of 20 blank labels |
| Charts.ChartPanel.UpdateCharts | client/js/charts.js:103-177 | the charts become `Update` of their previous view; with no charts, or a missing volts or amps argument, nothing changes |
| Charts.ChartPanel.UpdateVolt | client/js/charts.js:111-142 | the voltage section updates the objects as `VoltStep` says, including writes through a shared labels array |
| Charts.ChartPanel.UpdateAmp | client/js/charts.js:144-176 | the amperage section updates the objects as `AmpStep` says |
| Charts.VoltStep | client/js/charts.js:111-142 | the voltage section never touches the amperage data |
| Charts.AmpStep | client/js/charts.js:144-176 | the amperage section never touches the voltage data |
| Charts.VoltReplace | client/js/charts.js:112-121 | a batch of more than 6 values replaces the series by its newest 20; the labels are replaced, unsharing them, only for a non-empty labels argument, and otherwise nothing else changes |
| Charts.VoltLiveSample | client/js/charts.js:123-140 | a batch of 1 to 6 values adds exactly one point, the batch mean, which lies within the batch's range; the oldest point goes once the series would exceed 20; an empty batch changes nothing |
| Charts.UpdateBounded | client/js/charts.js:103-177 | one update keeps both series at no more than 20 points |
| Charts.TickAppendsAverages | client/js/main.js:164-166 | a monitor tick slides the two averages in as the newest points of the two series |
| Charts.TicksSlide | client/js/charts.js:123-158 | a run of ticks slides the averages in one at a time |
| Charts.TicksKeepNewest | client/js/charts.js:123-158 | after any run of ticks each series holds the newest 20 of its old points followed by the tick averages, oldest first |
| Charts.FullAfterOverflow | client/js/charts.js:136-139 | 21 ticks from freshly created charts leave exactly 20 points in each series |
| Charts.SharedLabelsShiftTwice | client/js/charts.js:136-158 | while the labels array is shared, a tick on full series shifts it twice, through both charts, and pushes nothing |
| Charts.AmpReplace | client/js/charts.js:145-151 | a batch of more than 6 values replaces the amperage series by its newest 20; the labels are replaced, unsharing them, only for a non-empty labels argument, and otherwise nothing else changes |
| Charts.AmpLiveSample | client/js/charts.js:152-156 | a batch of 1 to 6 values adds exactly one amperage point, the batch mean, which lies within the batch's range; the oldest point goes once the series would exceed 20; an empty batch changes nothing |
| Charts.AmpLabelsBounded | client/js/charts.js:155-174 | shared or not, a live amperage update with labels keeps amperage labels that start within 20 within 20: its own cap undoes its own push |
| Charts.SharedLabelsOverflow | client/js/charts.js:131-174 | with the shared array of `initCharts`, one live update with a labels argument leaves 21 amperage labels |
| Ui.Cells | client/js/ui.js:136-157 | one cell per channel value, highlighted iff that value breaches the rule |
| Ui.HighlightIffAlarm | client/js/ui.js:136-157 | a cell of a new history row is highlighted iff its channel is among the alarms handed to `onAlarm` |
| Ui.ClassifyRow | client/js/ui.js:136-157 | the `map` over one quantity yields exactly `Cells` and calls `onAlarm` with exactly `Events`, in channel order |
| Ui.CardOf | client/js/ui.js:39-58 | a card shows the machine's id and run state; its voltage and amperage flags follow the dashboard rules on the averages |
| Ui.CardsSound | client/js/ui.js:105-111 | every card in a department's grid is the card of a machine of that department |
| Ui.CardsComplete | client/js/ui.js:105-111 | every machine of a department has its card in that department's grid |
| Ui.CardAlarmed | client/js/ui.js:39-58 | a card has the red border and the ALARM button iff its machine runs and its average voltage is out of band or its average amperage over the standard; never for a stopped machine |
| Ui.GridShowsAlarm | client/js/ui.js:39-111 | a department's grid shows an alarmed card iff one of its machines runs with an average outside its rule |
| Ui.Page.ToggleView | client/js/ui.js:4-13 | "dashboard" shows the dashboard and any other name shows the monitor; nothing else changes |
| Ui.Page.RenderDashboardGrid | client/js/ui.js:24-113 | the three grids become the cards of the forming, packing and qc machines, in list order; other departments are not drawn |
| Ui.Page.PrependHistoryRow | client/js/ui.js:126-170 | the new row goes on top of the history, which keeps at most 20 rows; the alarms handed to `onAlarm` are exactly the row's alarms, in call order |
| Ui.NewestRowsOnTop | client/js/ui.js:117-124 | prepending the backlog's rows one by one leaves the newest min(20, n) rows, row i being backlog row n-1-i |
| Ui.ChannelIff | client/js/ui.js:136-157 | a channel raises an alarm exactly when its value breaches the rule |
| Ui.Page.FillHistoryTable | client/js/ui.js:117-124 | the table shows the newest min(20, n) backlog rows, newest on top: row i is backlog row n-1-i |
| Ui.Page.AddAlarmLog | client/js/ui.js:174-195 | the entry goes on top of the alarm log, and the badge is shown and counts one more |
| Ui.Page.AddRecentAlarm | client/js/ui.js:197-215 | the entry goes on top of the recent alarms, which keep at most 5 entries |
| Ui.Page.ClearHistory | client/js/main.js:95 | the history table is emptied |
| Ui.Page.ClearAlarmLog | client/js/main.js:96 | the alarm log is emptied |
| Ui.Page.ClearRecentAlarms | client/js/main.js:97 | the recent-alarms table is emptied |
| Ui.Page.ResetBadge | client/js/main.js:98-99 | the badge reads 0 and is hidden |
| Session.RecentTopIsOldestRow | client/js/main.js:123-126 | walking the backlog newest row first leaves the last alarm of the oldest backlog row on top of the recent alarms |
| Session.OpenedChartsShowBacklog | client/js/main.js:119-131 | with 20 backlog rows the charts show exactly the rows' averages, oldest first, still sharing the 20 blank labels |
| Session.MonitorSession.constructor | client/js/main.js:7-11 | no machine open, no lot seen, no cache, no timer running, an empty page showing the dashboard, no charts |
| Session.MonitorSession.RunDashboardLoop | client/js/main.js:65-70 | the machine list is cached and the grids are redrawn from it; nothing else changes |
| Session.MonitorSession.StartDashboard | client/js/main.js:59-63 | as `RunDashboardLoop`, and the dashboard timer is running |
| Session.MonitorSession.ShowMonitor | client/js/main.js:91-101 | the dashboard timer stops, the machine becomes current, the three monitor tables are emptied, the badge is reset and the monitor view is shown |
| Session.MonitorSession.AddRecentAlarms | client/js/main.js:123-126 | each alarm, in order, is pushed onto the recent alarms |
| Session.MonitorSession.RecentFromBacklog | client/js/main.js:123-126 | the recent alarms receive the backlog alarms walking the rows newest first |
| Session.MonitorSession.TablesFromBacklog | client/js/main.js:119-126 | the history shows the backlog newest first and the recent alarms receive the backlog's alarms, newest row first; the badge and the alarm log are untouched |
| Session.MonitorSession.ChartsFromBacklog | client/js/main.js:128-131 | the charts are new ones that received the backlog's voltage and amperage averages in one update |
| Session.MonitorSession.LoadMonitor | client/js/main.js:109-135 | once the reading has arrived: its lot is remembered, the tables and the charts are filled from the backlog, and the monitor timer runs |
| Session.MonitorSession.OpenMonitor | client/js/main.js:90-135 | when the checked fetch of the response gives no record, only the cleared monitor shows; otherwise the lot is remembered, the history shows the backlog, the recent alarms its alarms, the charts its averages, and the monitor timer runs |
| Session.AfterAlarmsFields | client/js/main.js:159-162 | after a row's `onAlarm` calls the log holds its alarms newest first above the older entries, the badge counts each, the recent alarms keep the newest 5, and nothing else changes |
| Session.AfterLogsFields | client/js/main.js:82-85 | after a batch of `addAlarmLog` calls the log holds the batch newest first above the older entries and the badge counts each |
| Session.NewLotTick | client/js/main.js:143-162 | a tick that starts a new lot leaves only its row in the history, only its alarms in the log (newest first) and the newest 5 of them in the recent alarms, while the badge keeps counting from the previous lot |
| Session.SameLotTick | client/js/main.js:157-162 | a tick within a lot puts its row on top of the history, which then holds the newest 20 rows (`Take([row] + history, 20)`), and its alarms on top of the log; the recent alarms keep the newest 5 entries |
| Session.MonitorSession.OnAlarm | client/js/main.js:159-162 | one alarm goes on top of the alarm log, the badge counts it and is shown, and it goes on top of the recent alarms |
| Session.MonitorSession.OnAlarms | client/js/main.js:159-162 | each alarm, in call order, goes on top of the alarm log (badge +1) and of the recent alarms |
| Session.MonitorSession.CheckLotChange | client/js/main.js:143-155 | a new running lot other than "LOT ENDED" empties the three tables and recreates the charts; the badge is kept; the lot is remembered |
| Session.MonitorSession.TickTables | client/js/main.js:157-162 | the reading's row is prepended and its alarms are logged |
| Session.MonitorSession.TickCharts | client/js/main.js:164-166 | the charts take one tick of the reading's two averages |
| Session.MonitorSession.MonitorTick | client/js/main.js:143-166 | for an arrived reading: the lot check's reset, then the new row with its alarms, then the charts' tick; after a reset the history holds only the new row |
| Session.MonitorSession.RunMonitorLoop | client/js/main.js:137-170 | with no active machine (also id 0) or no reading nothing changes; otherwise the whole new page, chart and session state, including the reset on a new lot, after which the history holds only the new row |
| Session.MonitorSession.BackToDashboard | client/js/main.js:172-177 | the monitor timer stops, no machine is current, the dashboard shows and restarts; the charts are left as they are |
| Session.MonitorSession.AddAlarmLogs | client/js/main.js:82-85 | each alarm, in order, goes on top of the alarm log; the badge counts one more per alarm |
| Session.MonitorSession.OpenDashboardAlarm | client/js/main.js:72-87 | for a machine that exists, the alarm log holds exactly the backlog's alarms, newest call on top, the badge counts them and the alarm dialog shows; otherwise nothing changes |
| Api.LiveResponse | server/server.js:145-150 | the live route answers 404 with the "Not found" object exactly for an id that was never configured, and 200 with the record of that id otherwise |
| Api.NotFoundPassesGuard | client/js/api.js:51-53 | for an id that was never configured, the fetch as written resolves to a truthy value that carries no record, so `if(!dummyData)` at client/js/main.js:104 lets it through |
| Api.CheckedFetchIsLookup | server/server.js:145-150 | through the checked fetch, the live route is exactly the store's lookup: no record precisely for an id never configured |
| Scenarios.ZerosRenderNothing | server/server.js:53 | any number of zero registers decode to no text |
| Scenarios.BlockLot | server/server.js:102-106 | the example block's lot registers decode to "LOT" |
| Scenarios.BlockValues | server/server.js:98-110 | the example block serves standards 12.00 V and 5.00 A and its six voltage and six amperage channels |
| Scenarios.BlockAlarms | client/js/ui.js:136-157 | a running reading with those values alarms on voltage channels 1, 2, 3, 5, 6 and nothing else |
| Scenarios.RunningBlock | server/server.js:89-116 | with register 40 = 1 the block reads running, lot "LOT", and raises exactly those voltage alarms |
| Scenarios.EndedBlock | server/server.js:89-106 | with register 40 = 0 the same block reads stopped and "LOT ENDED", and raises no alarm although channel 2 is out of band |

## Left out

- Rendering: HTML, CSS classes, the card markup and the `toFixed(2)` formatting of displayed values. Cards and rows are kept as values.
- Chart.js internals: `chart.update('none')`, canvas drawing and `destroy()`. The canvas existence check of `initCharts` is left out: both canvases always exist in the model.
- Missing `tbody` or badge elements: the `if (!tbody) return` guards of ui.js are left out. The page always has its elements.
- Acquisition.Decode: the server rounds the averages with `toFixed(2)` and `parseFloat`. The model keeps the exact mean in hundredths, so a dashboard flag can differ at a rounding boundary.
- Session.MonitorSession.TickCharts: the client rounds its averages with `toFixed(2)`. The model uses the exact mean.
- Session.MonitorSession.ChartsFromBacklog, Session.MonitorSession.LoadMonitor, Session.MonitorSession.OpenMonitor: the backlog may have any length, while `openMonitor` always generates `HISTORY_ROWS` rows (`client/js/main.js:119`); `Session.OpenedChartsShowBacklog` states the 20-row case. The backlog averages of `calculateAverage` are `toFixed(2)` strings (`client/js/utils.js:58-61`); the model uses the exact mean as a number.
- Floating point in general: all client arithmetic is exact real arithmetic.
- Timers: `setInterval`, `setTimeout` and `clearInterval` become booleans (`dashboardRunning`, `monitorRunning`) and connection phases with their delays. Interleavings of concurrent timers and promises are not modelled.
- I/O: fetches (`client/js/api.js`), the clock, `formatDateTime`, `updateClock` and the Modbus transport become parameters or are dropped.
- Backlog generation: `generateHistoryData` and the random values of `generateMockValues` (client/js/utils.js) become the `backlog` parameter.
- `db.insertLog`, the Express routing other than the live lookup, the export endpoints and the Excel export: recorded only as the ghost `Logged` sequence, or not at all.
- `server/simulate_plc.js` is not part of this model.
- Environment configuration: `POLLING_RATE` is fixed at its default of 60000 ms.
- URL parsing, the click handling of `init` and the "Machine Not Found!" alert.
- Session.MonitorSession.OpenMonitor: reads the response through the corrected fetch `Api.FetchChecked`. The as-written path for an id that was never configured is followed only up to the guard (`Api.NotFoundPassesGuard`). After it, `lastLotName` becomes undefined and `stdV.toFixed` throws at `client/js/main.js:115`, before the tables, the charts and the timer; that state is not modelled.
- Session.MonitorSession.RunMonitorLoop, Session.MonitorSession.OpenDashboardAlarm: `fetched` is the checked fetch's result as well. Their ids come from the dashboard or the open monitor, so they are configured ids.
- NaN machine ids from `parseInt`.
- Session.MonitorSession.OpenDashboardAlarm: the nested `forEach` over rows and channels is modelled as one loop over the backlog's alarms in the same call order.
- Ui.Page.AddAlarmLog: the badge is a number, so the `parseInt(badge.innerText) || 0` re-parse is left out.
- Labels: the monitor never passes labels. `Charts.ChartPanel.UpdateCharts` models them, but a label is either a text or a pushed array, with no other JavaScript values.

## Findings

| source | as written | input that shows it | evidently intended | confidence | as-written member | corrected member |
|---|---|---|---|---|---|---|
| client/js/api.js:51-53 | `fetchMachineData` returns `res.json()` whatever the status, so a 404 resolves to `{ error: "Not found" }`, which is truthy | `openMonitor(7)` with no machine 7 configured (an `?id=7` URL): the guard at client/js/main.js:104 passes, `lastLotName` becomes undefined and `dummyData.stdV.toFixed(2)` throws at client/js/main.js:115 | a non-ok response resolves to null, so the "Machine Not Found!" alert shows | not executed | Api.NotFoundPassesGuard | Api.CheckedFetchIsLookup |
