# CurrentCost GUI — a Dafny model of its sequential core

The CurrentCost GUI is a wxPython/matplotlib desktop application for CurrentCost electricity
meters. It has three jobs:

- It shows live readings, over a serial cable or an MQTT broker, overlaid with National Grid
  demand and frequency.
- It downloads the meter's stored history (two-hourly, daily and monthly figures) over
  serial or MQTT.
- It draws the history in kWh, pounds or kg of CO2, with optional usage targets.

This project models the logic under the widgets and threads, in Dafny:

- **Generation mix** (`generation.dfy`, module `Generation`). This covers:
  - the twelve generation sources;
  - the default energy mix (everything UNKNOWN);
  - the split of a live reading by source;
  - the poller that keeps the mix up to date, and its start / stop rules.
- **Stacked generation graph** (`streamgraph.dfy`, module `GenerationGraph`). This is the
  geometry of `stacked_graph`:
  - the mirrored time axis;
  - the twelve streams;
  - the bands that alternate above and below the zero line;
  - the baseline shift;
  - the filled polygons.
- **Live-data agent** (`livedata.dfy`, module `LiveData`, class `CurrentCostLiveData`). This
  covers:
  - the three parallel live buffers and the four National Grid buffers;
  - the redraw protocol under the lock;
  - the demand / frequency display state machine;
  - `connect` / `disconnect` / `exitOnError`;
  - the frequency tick labels;
  - the span query;
  - the CSV export.
- **Span query** (`spanquery.dfy`, module `SpanQuery`). This is the loop of `onselect`, which
  computes usage over a selected time window, and the summary it reports.
- **MQTT history decoder** (`mqtthistory.dfy`, module `MqttHistory`). This covers:
  - the subscription topic;
  - the topic suffix;
  - whitespace tokenising;
  - the positional decoding of hours / days / months publications;
  - the connect / subscribe / disconnect error paths.
- **History download over serial** (`download.dfy`, module `HistoryDownload`). This is the
  receive loop of `getDataFromCurrentCostMeter`, as a state machine over the events the
  loop meets, and the rule for closing the serial port.
- **Main application decisions** (`app.dfy`, module `CurrentCostApp`). This covers:
  - the CO2-by-supplier lookup with its fallback and cache;
  - the unit factor;
  - the usage-target conversions;
  - the usage-target toggle;
  - the serial / MQTT connection toggles of the live and history menus.
- **Numerals** (`numerals.dfy`) models `int()` / `atoi` and `float()` / `atof` on decimal
  numerals. **Wrappers** (`wrappers.dfy`) holds `Option` and `Result`.

The following are conventions of the model:

- **Timestamps** are whole seconds (`int`).
- **Energy and power** are `real`.
- **Settings store.** The sqlite settings store is a `map<string, string>`. A missing key
  reads as `None`.
- **Inputs from outside.** Each of these is a parameter of the operation that uses it:
  - the clock, such as `datetime.now`;
  - the user's answer to a dialog;
  - the outcome of a foreign call, such as a serial connect, a broker refusing a
    subscription or a matplotlib call raising.
- **Exceptions.** Where the source raises an exception that escapes, the model returns an
  `Err` or `None` value naming it.

### How the span query sums usage

The usage over a selected span is summed by the loop of `onselect`, as follows:

- For a reading before the span, the loop assigns the usage of the reading's whole
  interval (`totalUsage = kwhUsage`, currentcostlivedata.py:775). It does not add it, and
  it does not cut it to the part inside the span.
- For each reading inside the span, it adds the usage of that reading's whole interval.

Take readings of 1 kW at 0 s, 2 kW at 3600 s and 1 kW at 7200 s, over [1800 s, 5400 s).
The query reports 3.0 kWh from 0 s to 7200 s; `SpanQuery.ThreeReadingExample` proves this.

## Model

| member | source | states |
|---|---|---|
| Generation.DefaultMix | electricitygeneration.py:47-58 | the initial mix has an entry for every source: UNKNOWN is 100 and each of the other eleven is 1e-28 |
| Generation.DefaultMixTotal | electricitygeneration.py:47-58 | the default mix totals 100% plus eleven negligible shares |
| Generation.SourcesEnumeratesEverySource | electricitygeneration.py:109-122 | the split is keyed by exactly twelve distinct sources, every source among them |
| Generation.SplitBySource | electricitygeneration.py:109-122 | the split exists exactly when the mix has every source (otherwise KeyError); it has the mix's keys, and each source's value is its percentage / 100 times the reading |
| Generation.SplitApportionsReading | electricitygeneration.py:109-122 | the split's values add up to the reading scaled by the mix's total percentage, so a 100% mix apportions the whole reading |
| Generation.DefaultSplitIsUnknown | electricitygeneration.py:109-122 | under the default mix the whole reading is attributed to UNKNOWN |
| Generation.FailedPollsKeepMix | electricitygeneration.py:219-233 | polls whose parse fails leave the mix unchanged |
| Generation.LastParsedMixWins | electricitygeneration.py:219-233 | after a run of polls the mix is the last one parsed successfully |
| Generation.GridGenerationUpdateThread.Run | electricitygeneration.py:219-233 | the poll loop leaves the parent's mix as the last good parse of its polls, or unchanged when stopped before it began |
| Generation.GridGenerationUpdateThread.StopUpdates | electricitygeneration.py:214-218 | stopping raises the disconnect flag and wakes the sleeper once |
| Generation.CurrentCostElectricityGeneration.StopBackgroundThread | electricitygeneration.py:68-83 | without a poller nothing changes; with one, it is stopped and the default mix restored; the poller handle is kept |
| Generation.CurrentCostElectricityGeneration.StartBackgroundThread | electricitygeneration.py:62-66 | an existing poller is stopped (restoring the default mix) before a fresh, started, not-stopped poller on this component replaces it |
| GenerationGraph.MirrorTimes | electricitygeneration.py:159-161 | the time axis doubles in length, keeps its first half and has timeset[n-1-i] at position n+i |
| GenerationGraph.SplitIntoStreams | electricitygeneration.py:142-156 | stream k holds source k's value of each reading, in reading order |
| GenerationGraph.StackBounds | electricitygeneration.py:163-184 | one band per stream, equal to the closed form: even streams stacked upward from zero, odd streams downward from zero |
| GenerationGraph.BandsStackWithoutGaps | electricitygeneration.py:173-184 | each band is exactly as thick as its stream and shares an edge with the band two positions back |
| GenerationGraph.ColumnMin | electricitygeneration.py:186-187 | the baseline value at a reading is a lower edge of some band and no greater than any band's lower edge |
| GenerationGraph.BaselineIsDeepestLowerEdge | electricitygeneration.py:186-187 | with non-negative shares the baseline is minus the sum of all the streams drawn below zero |
| GenerationGraph.FillPolygon | electricitygeneration.py:189-192 | a polygon runs along its lower edge and back along its upper edge, both shifted by the baseline |
| GenerationGraph.StackedGraph | electricitygeneration.py:125-199 | KeyError exactly when some split lacks a source; otherwise ValueError exactly when the time axis and the splits differ in length (np.vstack at :168); otherwise one polygon per source in source order, where at every reading each band is as thick as that source's share, no polygon dips below zero, and each band touches the one two back |
| GenerationGraph.DrawnGraphFacts | electricitygeneration.py:186-197 | the drawn polygons satisfy the thickness, non-negativity and touching facts at every vertex |
| LiveData.FrequencyLabelBands | currentcostlivedata.py:725-733 | the label is "supply = demand" exactly for frequencies rounding to 50.00, "supply > demand" for 49.90, "supply < demand" for 50.10, and empty for every other frequency |
| LiveData.ZeroLineIsBalanced | currentcostlivedata.py:110 | the 50 Hz zero line is labelled as balanced supply and demand |
| LiveData.Record | currentcostlivedata.py:559-566 | a National Grid poll is stored in all four series only when both demand and frequency came back, with the zero line at 50 Hz; alignment is preserved |
| LiveData.RecordedStaysAligned | currentcostlivedata.py:559-566 | a run of polls keeps the four series aligned, adds one entry per complete poll and leaves earlier entries untouched |
| LiveData.RedrawStopsAtFirstFailure | currentcostlivedata.py:156-392 | a redraw returns True exactly when no step fails, and otherwise returns False at the first failing step with every earlier step carried out |
| LiveData.RedrawnPerformsPlan | currentcostlivedata.py:156-392 | a redraw that returns True has carried out every step |
| LiveData.UnguardedStepsHaveLiveAxes | currentcostlivedata.py:250-313 | the statements outside any try block are reached only after a step on the live axes succeeded |
| LiveData.NoRedrawWithoutLiveAxes | currentcostlivedata.py:156-392 | without a live graph a redraw returns False and no canvas is drawn |
| LiveData.RedrawnAxesShareLimits | currentcostlivedata.py:307-313 | after a successful redraw every axes present gets the x limits [start time, redraw time], the frequency axes also the y limits [49.8, 50.2], and ends with a canvas draw |
| LiveData.RaisesExactlyWhenLimitsFail | currentcostlivedata.py:307-313 | as written, a redraw escapes with the lock held exactly when matplotlib raises while the limits are set and every earlier step succeeded; on every other redraw the as-written and corrected outcomes agree and release the lock |
| LiveData.LimitsRaiseExample | currentcostlivedata.py:307-313 | live data on live axes with only the limits step raising: as written the exception escapes, corrected the redraw returns False |
| LiveData.CurrentCostLiveData.RedrawGraphAsWritten | currentcostlivedata.py:156-392 | the redraw as written: the calls of the steps before the first failure, and the lock still held exactly when the limits step raised |
| LiveData.CurrentCostLiveData.RedrawGraph | currentcostlivedata.py:156-392 | the redraw with a failing limits step handled like the others: with a dialog open nothing happens and the lock is not taken; otherwise the lock is taken once and is free again on every exit, and each axes receives the calls of the steps before the first failure |
| LiveData.CurrentCostLiveData.UpdateGraph | currentcostlivedata.py:400-424 | a positive reading appends its time and value, and its split when the mix is complete, then redraws; a reading of zero or less changes no buffer and takes no lock; the buffer invariant (aligned, positive) is kept |
| LiveData.CurrentCostLiveData.UpdateNationalGridGraph | currentcostlivedata.py:559-575 | the poll is stored as Record says; a redraw happens only for a complete poll while no live feed is connected |
| LiveData.NationalGridUpdateThread.Run | currentcostlivedata.py:885-889 | the poll loop stores every poll in order, or nothing when stopped before it began, leaving the lock free |
| LiveData.NationalGridUpdateThread.StopUpdates | currentcostlivedata.py:883-884 | stopping raises the disconnect flag |
| LiveData.CurrentCostLiveData.PrepareCurrentcostDataGraph | currentcostlivedata.py:429-439 | the given axes become the live graph, labelled kW, with grid on and the autoscale attribute cleared |
| LiveData.CurrentCostLiveData.Connect | currentcostlivedata.py:444-508 | connection type, live graph and GUI are stored; the graph is cleared and prepared; the start time is set only if unset; a fresh started connection of the requested kind is created (none for another kind); the span selector is attached; the generation poller is restarted only when the user asked for it |
| LiveData.CurrentCostLiveData.Disconnect | currentcostlivedata.py:516-537 | closing is set, only the connection of the current kind is asked to disconnect, the demand/frequency poller is stopped but kept, the generation poller is stopped, and the connection type and live graph are cleared |
| LiveData.CurrentCostLiveData.ExitOnError | currentcostlivedata.py:544-551 | it disconnects, then the GUI unchecks both live menu items and shows the message |
| LiveData.LiveGui.DisplayLiveConnectFailure | currentcost.py:1270-1278 | both live menu items unchecked and the message shown |
| LiveData.CurrentCostLiveData.StartNationalGridDemandData | currentcostlivedata.py:583-617 | a no-op when demand is already shown; otherwise demand is shown, the start time set if unset, the frequency twin dropped, a demand twin made only if absent and the poller created only if absent; without any live graph twinx raises before the poller starts |
| LiveData.CurrentCostLiveData.StopNationalGridDemandData | currentcostlivedata.py:623-634 | a no-op when demand is hidden; otherwise demand is hidden, the poller stopped and dropped; without a poller it raises after hiding |
| LiveData.CurrentCostLiveData.PauseNationalGridDemandData | currentcostlivedata.py:640-645 | demand is hidden and nothing else changes |
| LiveData.CurrentCostLiveData.StartNationalGridFrequencyData | currentcostlivedata.py:652-687 | as for demand with the twins exchanged; a new frequency twin comes with its tick formatter |
| LiveData.CurrentCostLiveData.StopNationalGridFrequencyData | currentcostlivedata.py:693-704 | as for demand |
| LiveData.CurrentCostLiveData.PauseNationalGridFrequencyData | currentcostlivedata.py:710-715 | frequency is hidden and nothing else changes |
| LiveData.CurrentCostLiveData.OnSelect | currentcostlivedata.py:753-847 | the reported summary is the span report of the stored readings; a summary is shown (with redraws suspended meanwhile) only when the query does not raise |
| LiveData.CurrentCostLiveData.ExportLiveData | currentcostlivedata.py:137-150 | a Time/kWH header, then one row pairing each stored time with its reading, every reading but the last |
| SpanQuery.DeltaSeconds | currentcostlivedata.py:770 | the seconds field of a time difference: below one day, equal to the difference when that is under a day, and congruent to it modulo a day |
| SpanQuery.ScanSpan | currentcostlivedata.py:767-786 | the onselect loop leaves the positions and total of ScanSpec, or the IndexError it raises |
| SpanQuery.SpanTotal | currentcostlivedata.py:767-786 | for sorted readings the total is the usage of the last interval starting before the span plus the usages of all intervals starting in it, and nothing is reported as used exactly when no reading lies in [datelo, datehi) |
| SpanQuery.FaultsWhenSpanReachesLastReading | currentcostlivedata.py:770-778 | for sorted readings the query raises IndexError exactly when the last reading is before one end of the span |
| SpanQuery.ClampNeverApplies | currentcostlivedata.py:806-809 | when the scan succeeds, the reading after the last in-span one exists, so the upper clamp never takes effect |
| SpanQuery.Report | currentcostlivedata.py:790-847 | no usage when nothing is in the span; otherwise usage from the reading before the span (or the first) to the reading after the last in-span one, with the cost when a unit cost is stored, and ValueError when the stored cost is not a number |
| SpanQuery.ThreeReadingExample | currentcostlivedata.py:767-786 | 1, 2, 1 kW at 0, 3600, 7200 s over [1800, 5400) reports 3.0 kWh from 0 s to 7200 s |
| MqttHistory.Tokens | currentcostmqtthistory.py:122 | every token is non-empty and free of whitespace |
| MqttHistory.TokensOfJoin | currentcostmqtthistory.py:122 | splitting space-joined words gives the words back |
| MqttHistory.SubscriptionTopic | currentcostmqtthistory.py:72 | the subscription topic is the topic string followed by two more characters ("/+") |
| MqttHistory.DataType | currentcostmqtthistory.py:119 | the data type is the message topic after the topic string and one separator, empty for a shorter topic |
| MqttHistory.DataTypeIsSuffix | currentcostmqtthistory.py:119 | for a topic "<topic string>/<suffix>" the data type is the suffix |
| MqttHistory.Fields | currentcostmqtthistory.py:125-187 | tokens are parsed in order; success gives one value per token parsed; failure names the first token missing (IndexError) or rejected (ValueError), every earlier one having parsed |
| MqttHistory.Decode | currentcostmqtthistory.py:116-188 | a suffix other than hours, days or months decodes to no update |
| MqttHistory.HoursComeFromTokens | currentcostmqtthistory.py:125-139 | an "hours" publication fills kWattsHour02..kWattsHour26 from the first 13 tokens read as floats, in order |
| MqttHistory.DaysComeFromTokens | currentcostmqtthistory.py:140-173 | a "days" publication fills WattsDay01..WattsDay31 from the first 31 tokens read as integers, in order |
| MqttHistory.MonthsComeFromTokens | currentcostmqtthistory.py:174-188 | a "months" publication fills WattsMonth01..WattsMonth12 from the first 12 tokens read as integers, in order |
| MqttHistory.ShortPayloadIsIndexError | currentcostmqtthistory.py:174-188 | a months payload with fewer than 12 numeric tokens raises IndexError at the first missing position |
| MqttHistory.DaysRoundTrip | currentcostmqtthistory.py:140-173 | 31 integers published space-separated under ".../days" decode back to the same 31 integers |
| MqttHistory.MonthsRoundTrip | currentcostmqtthistory.py:174-188 | 12 integers published under ".../months" decode back to the same 12 integers |
| MqttHistory.Subscriber.MessageReceived | currentcostmqtthistory.py:116-188 | the result is the decoding of the publication, and the GUI receives exactly one update when it decodes to one and none otherwise |
| MqttHistory.Subscriber.EndConnection | currentcostmqtthistory.py:193-203 | an unsubscribe is attempted and, whether or not it fails, so is a disconnect; both failures are swallowed |
| MqttHistory.HistoryConnection.EstablishConnection | currentcostmqtthistory.py:54-79 | a refused connection reports "Unable to connect (...)" and subscribes nothing; otherwise a subscriber to "<topic string>/+" on that connection is stored, wired to the GUI, and a refused subscription reports "Unable to subscribe to topic (...)" |
| MqttHistory.HistoryConnection.Disconnect | currentcostmqtthistory.py:84-86 | ends the subscription when there is one and does nothing otherwise |
| Numerals.ParseInt | currentcostmqtthistory.py:142 | int parsing succeeds exactly on an optionally signed run of digits, with the sign of the result following the sign character |
| Numerals.ParseFloat | currentcostmqtthistory.py:126 | float parsing agrees with int parsing on integer numerals and the sign of the result follows the sign character |
| Numerals.ParseFloatAccepts | currentcostmqtthistory.py:126 | float parsing succeeds exactly on an optional sign followed by digits, or digits, one point and digits, with at least one digit |
| Numerals.ParseFloatOfDecimal | currentcostmqtthistory.py:126 | "w.f" reads as the value of w plus the value of f over 10 to the number of digits of f, and "-w.f" as its negation |
| Numerals.ParseFloatExample | currentcost.py:1777 | the cost "0.15" reads as 0.15 |
| Numerals.SignedFractionExample | currentcostmqtthistory.py:126 | "-.5" reads as -0.5 |
| Numerals.ParseIntOfIntToString | currentcostmqtthistory.py:142 | an integer written in decimal reads back as itself, as an int and as a float |
| HistoryDownload.ReceiveUpdates | currentcost.py:1937-2053 | the while loop over the events it meets ends as the receive state machine Receive says |
| HistoryDownload.CountsAreTheLinesRead | currentcost.py:1993-2048 | the counters at the end count exactly the lines the loop read: unparsable lines only as invalid, history updates only as history, live-only updates only as live |
| HistoryDownload.CompletesOnlyAfterHistory | currentcost.py:2013-2048 | the loop completes only after at least one history update, because a CC128 live-only update ends it only once history has arrived |
| HistoryDownload.AsWrittenDiffersOnlyAtSerialFault | currentcost.py:1960-1986 | as written and as intended the loop reads and counts the same; they differ only at a failing serial read, which raises NameError instead of returning False |
| HistoryDownload.SerialReadFaultExample | currentcost.py:1963-1965 | a first read raising SerialException raises NameError as written and returns False as intended |
| HistoryDownload.GetDataFromCurrentCostMeter | currentcost.py:1888-2061 | the result is the download of Download (connection failure, or the receive loop) mapped to True/False/nothing; an already open port stays open, and a port it opened itself is closed exactly on completion or cancel |
| CurrentCostApp.Setting | currentcost.py:1635 | a stored setting reads back as itself, and a missing one as None |
| CurrentCostApp.KnownSupplier | currentcost.py:1636-1652 | a listed supplier is kept and any other name becomes "Any other UK supplier", whose factor is 0.480 |
| CurrentCostApp.MainFrame.GetKgCO2PerKWh | currentcost.py:1627-1659 | the factor is always one of the table's; a cached non-zero factor is returned unchanged when no prompt is asked for; otherwise the stored supplier (or the dialog's choice) is looked up with the fallback, the fallback is persisted, and the factor is cached; the cache always matches the stored supplier |
| CurrentCostApp.FloatSetting | currentcost.py:1758 | float of a setting fails exactly on a missing setting (TypeError) or a non-numeral (ValueError) |
| CurrentCostApp.UnitFactor | currentcost.py:2075-2080 | the factor is 1 for kWh or no unit, the float of the kWh cost for pounds, and the supplier's CO2 factor for CO2; only pounds can raise |
| CurrentCostApp.TargetsFor | currentcost.py:1777-1780 | annual kWh times the cost gives the target; monthly, daily and two-hourly are a twelfth, a 365th and a 4380th of annual; zero cost raises ZeroDivisionError |
| CurrentCostApp.TargetsAreConsistent | currentcost.py:1777-1780 | a day holds twelve two-hour targets and twelve monthly targets equal 365 daily ones |
| CurrentCostApp.DisplayUsageTarget | currentcost.py:1755-1800 | target lines are drawn exactly when the annual target and the cost are numerals and the cost is non-zero, with the unit factor and the levels two-hourly, daily, monthly, two-hourly, daily; a failed read of the annual target raises its own error, then a non-numeral cost raises ValueError and a zero cost ZeroDivisionError |
| CurrentCostApp.MainFrame.OnSetUsageTarget | currentcost.py:1665-1685 | a stored "0" turns targets on and stores 1 only when enabling succeeds; any other value, none included, turns them off and stores 0; the menu item shows the outcome |
| CurrentCostApp.MainFrame.ConnectSerial | currentcost.py:1282-1376 | on serial, choosing serial disconnects and unchecks both items; otherwise an MQTT agent is disconnected first, then the agent connects over the open port or over a port the user names that opens, the port name is stored, and a failure or cancel leaves both items unchecked |
| CurrentCostApp.MainFrame.OnLiveConnectSerial | currentcost.py:1282-1376 | the serial toggle of ConnectSerial on the live agent and live menu, with the same outcome: disconnect and uncheck on serial; otherwise MQTT disconnected first, a connection over the open port or a named port that opens, the named port stored, False on a failed open, and the items and the port state showing the result |
| CurrentCostApp.MainFrame.OnDownloadAllSerial | currentcost.py:1018-1131 | the same toggle and the same outcome on the history agent and history menu |
| CurrentCostApp.MainFrame.OnLiveConnectMQTT | currentcost.py:1381-1469 | without MQTT support both items are unchecked; on MQTT, choosing MQTT disconnects and unchecks; otherwise serial is disconnected first, each answered dialog's value is stored, the agent connects with the answered address and topic, and a cancelled dialog unchecks both and returns False |

## Left out

- wx dialogs, menus, message boxes and progress bars. Only the values they report or
  return are modelled, and the user's answers are parameters.
- matplotlib drawing. Each call on a set of axes is recorded as an `AxesCall`, and
  "matplotlib raised here" is the `broken` parameter of a redraw.
- Real threads, `Lock` and `Condition`:
  - the lock is the `lockHeld` flag with a ghost count of acquisitions;
  - each poller's run is a loop over the polls it gets to make;
  - interleaving with other threads is not modelled.
- The National Grid and generation data sources, the MQTT client library, the serial
  port driver and the meter XML parser. They are foreign calls whose code is not part of
  this model. Their results are parameters: `Option` values for parsed data, `Parsed`
  for a meter line, and `SerialConnect` for a connect outcome.
- File and database I/O:
  - the CSV file is its sequence of rows;
  - the sqlite store is a map from key to value;
  - `storeTimedCurrentCostData` is reduced to the number of updates it returns.
- The clock. `datetime.now(pytz.utc)` is a caller-supplied timestamp in seconds.
- Floating point. Reals are used, with no rounding and no `%.5f` / `%.3f` formatting.
- LiveData.FrequencyLabelBands: `round(x, 2)` is modelled on the real value, rounding
  halves away from zero. On doubles the band edges can differ: 49.995 is stored just
  below itself and rounds to 49.99 (no label), and 50.105 rounds to 50.1.
- Tracing (`trc` calls), except for the one trace argument that raises (see Findings).
- The creation of the live axes in `onLiveConnectSerial` / `onLiveConnectMQTT`.
- The pre-filling of dialogs with stored values.
- The dialog message texts of `getDataFromCurrentCostMeter`.
- `getKWHCost`. `displayUsageTarget` takes the cost string it returns as a parameter.
- `enableUsageTarget` and `disableUsageTarget`. Their success is a parameter, and their
  drawing is not modelled.
- `IsMQTTSupportAvailable`, which is a parameter.
- `onDownloadAllMQTT` and the history agent's own connect code. The history agent is seen
  only through its connection type and the requests made of it.
- Numerals.ParseFloat: accepts only an optional sign and decimal digits with at most one
  point. `atof` also accepts exponents, `inf` and `nan`, which the model rejects.
- MqttHistory.Decode: its own contract states only the other-suffix case. The decoding of
  each kind is stated by the lemmas HoursComeFromTokens, DaysComeFromTokens,
  MonthsComeFromTokens, ShortPayloadIsIndexError, DaysRoundTrip and MonthsRoundTrip.
- SpanQuery.DeltaSeconds: whole seconds only. The microseconds that `timedelta.seconds`
  discards are not modelled.
- LiveData.NationalGridUpdateThread.Run: it redraws through the corrected
  `RedrawGraph`, so it leaves the lock free. As written, a raise while the limits are set
  leaves the lock held, and the next poll's redraw blocks on it for good (see Findings).
- LiveData.CurrentCostLiveData.UpdateGraph: it redraws through the corrected
  `RedrawGraph`, with the same consequence as for `Run`.
- LiveData.CurrentCostLiveData.UpdateNationalGridGraph: it redraws through the corrected
  `RedrawGraph`, with the same consequence as for `Run`.
- HistoryDownload.ReceiveUpdates: reads that return an empty line are retried inside one
  pass of the loop and are not represented as events.

## Findings

| source | as written | input that shows it | evidently intended | confidence | as-written member | corrected member |
|---|---|---|---|---|---|---|
| currentcostlivedata.py:307-313 | step 4 of `redrawGraph` sets the x and y limits outside any try block; if matplotlib raises there, the exception leaves the method with `self.lock` still held (acquired at :169), so every later redraw blocks on it | live axes with data, every step fine until `set_xlim` raises | catch the failure, release the lock and return False, as every other step does | not executed | LiveData.CurrentCostLiveData.RedrawGraphAsWritten | LiveData.CurrentCostLiveData.RedrawGraph |
| currentcost.py:1963-1965 | the `except serial.SerialException, err` handler of the serial read traces `str(msg)`; `msg` is bound only by the later `except Exception, msg` clause, so the handler raises UnboundLocalError (a NameError) and the download never returns False | the first `readUpdate()` of a download raises SerialException | report the failure and return False, as the sibling handler does | not executed | HistoryDownload.ReceiveAsWritten | HistoryDownload.Receive |

For the redraw, `LiveData.LimitsRaiseExample` exhibits the finding, and
`LiveData.RaisesExactlyWhenLimitsFail` proves that this is the only way out with the lock
held. `UpdateGraph`, `UpdateNationalGridGraph` and the National Grid poller use the
corrected redraw.

For the download, `HistoryDownload.SerialReadFaultExample` exhibits the finding on that
input. `HistoryDownload.AsWrittenDiffersOnlyAtSerialFault` proves the two loops agree
everywhere else. `HistoryDownload.ReceiveUpdates` and
`HistoryDownload.GetDataFromCurrentCostMeter` use the corrected loop.
