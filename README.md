# iot-smart-alarm, modelled in Dafny

The smart alarm is a handful of small programs around an MQTT broker:

- **An ESP32 script.** It plays one of two tracks depending on a button.
- **A Python backend.** It hands its own IP to the ESP32 over a socket, stores sensor states, and keeps an `alarm_triggered` flag driven by command messages.
- **An analysis server.** It keeps a running mean of the delays it is sent.
- **A sleep-time script.** It turns a day of bed-state records into hours asleep, and scores them against a ground truth.
- **A weather tagger.**
- **A Telegram bot.** It turns chat commands into backend requests.
- **A React web app.** It holds an alarm list, alarm cards that compare the wall clock with their time, and a settings dialog with two validators.

Each of these is one Dafny module here. Everything outside the programs becomes an input or an output:

- the broker, the time-series store, HTTP, sockets, Telegram, the clock and the hardware pins;
- sequences of events (connect outcomes, replies, button levels, clock ticks);
- effect logs (actions taken, requests built, commands sent to the LED and player).

Files:

- `wrappers.dfy`: `Option` and `Result`.
- `text.dfy`: Python's `str.strip`, `str.split`, `str.join` and `str(int)`, with their round trips.
- `numeric.dfy`: Python's `int(text)` and `float(text)`, and JavaScript's `parseFloat(text)`.
- `json_value.dfy`: a decoded JSON value and Python's `int()`, `float()`, `d[k]` and `d.get(k)` on it.
- `button_player.dfy`: esp32/main.py, as the class `Player`.
- `broker_handshake.dfy`: backend/mqtt_utils.py, as the class `BrokerLink`.
- `backend_server.dfy`: backend/server.py, as the class `Backend`.
- `delay_average.dfy`: data_analysis/server.py, as the class `DelayStats`.
- `sleep_accuracy.dfy`: data_analysis/sleep_accuracy.py.
- `weather.dfy`: backend/weather_utils.py.
- `alarm_bot.dfy`: telegram_bot/bot.py.
- `alarm_list.dfy`: webapp/frontend/src/components/Hero.jsx.
- `alarm_clock.dfy`: frontend/src/components/Alarm.jsx.
- `settings_modal.dfy`: frontend/src/components/SettingsModal.jsx.

The stateful parts keep the source's form. Each is a class whose fields are the globals or React state it updates, and each method states its new state through a specification function:

- the ESP32 loop, against the recursive `RunFlags` and `RunEffects` over the button levels;
- the broker handshake, against the recursive `Handshake` over the observed outcomes;
- the backend callbacks, against the non-recursive `OnMessage`, the recursive `FirstSuccess` and the closed-form `RetrySleeps`;
- the delay mean, against the non-recursive `Classify` and `Mean` (the latter over the recursive `Sum`);
- the settings dialog, against the non-recursive `CheckSamplingRate` and `CheckWSize`.

The loops of the sleep accumulation and of `list_alarms` are methods with loop invariants. `update_alarm` has no loop: it is a method that builds its payload by adding keys under conditions. The pure parts are functions with lemmas:

- the weather chain;
- the bot's argument checks;
- the alarm list;
- the clock text.

Some of the system's documentation describes features that none of the modelled source files implements, so the model has none of them:

- a presence detector with a sliding-window average;
- ring hysteresis and escalation;
- a scheduler that fires stored alarms once per minute.

The ESP32 side that exists is the button player. It replays track 1 on the first high reading after power-up (`ButtonPlayer.FirstHighReplaysTrackOne`), as the code does.

## Model

| member | source | states |
|---|---|---|
| ButtonPlayer.StepFlags | esp32/main.py:17-32 | after an iteration exactly one flag is set: `isPlaying1` on a high reading, `isPlaying2` on a low one |
| ButtonPlayer.StepEffects | esp32/main.py:17-32 | an iteration sets the LED first (0 when high, 1 when low); it plays track 1 iff the reading is high and `isPlaying1` was clear, and track 2 iff it is low and `isPlaying2` was clear; at most one play |
| ButtonPlayer.StepPlays | esp32/main.py:22-32 | the tracks one iteration starts are the asked-for track when its flag was clear, else none |
| ButtonPlayer.AfterReadings | esp32/main.py:17-32 | after any non-empty run of readings the flag of the last reading's track is set and the other is clear |
| ButtonPlayer.RepeatStaysQuiet | esp32/main.py:22-24 | one more equal reading in a run starts no track |
| ButtonPlayer.RunPlaysOnce | esp32/main.py:16-32 | a run of equal readings after a different reading starts its track exactly once, at its first reading |
| ButtonPlayer.OnePlayPerRun | esp32/main.py:16-32 | after the power-up play, the loop starts one track per run of equal readings |
| ButtonPlayer.FirstHighReplaysTrackOne | esp32/main.py:10-24 | startup plays track 1 and both flags start clear, so a first high reading plays track 1 again |
| ButtonPlayer.Player.constructor | esp32/main.py:10-14 | power-up sets volume 20, plays track 1, and clears both flags |
| ButtonPlayer.Player.Step | esp32/main.py:17-32 | one iteration emits `StepEffects` of the old flags, sets the flags to `StepFlags`, and appends the effects to the log |
| ButtonPlayer.Player.Run | esp32/main.py:16-32 | the loop over a sequence of readings emits exactly the effects and leaves exactly the flags of the recursive run specification |
| BrokerHandshake.Observe | backend/mqtt_utils.py:38-46 | an operation counts as raised exactly when it timed out or failed; a returned reply is classified by whether its stripped text is `ACK` |
| BrokerHandshake.PaddedAck | backend/mqtt_utils.py:39 | `ACK` with any whitespace around it is an acknowledgement |
| BrokerHandshake.ActionsConform | backend/mqtt_utils.py:20-47 | every connection attempt targets the alarm's host and port with a 10 s timeout, every send is the backend's IP, every wait is 5 s |
| BrokerHandshake.AckedOnlyOnAck | backend/mqtt_utils.py:38-42 | the function returns only if some reply acknowledged: that outcome follows another returned operation (a connect or an earlier reply), so it is never the first operation from a fresh start |
| BrokerHandshake.NonAckRepliesResend | backend/mqtt_utils.py:32-39 | on an open connection, non-ACK replies only re-send the same IP: no reconnect, no wait, no return |
| BrokerHandshake.FailuresRetryForever | backend/mqtt_utils.py:23-47 | any number of failed connects yields one attempt and one 5 s wait each, and never returns: there is no attempt cap |
| BrokerHandshake.ResendsUntilAck | backend/mqtt_utils.py:32-42 | non-ACK replies followed by an ACK end the handshake after one send per reply |
| BrokerHandshake.FailuresThen | backend/mqtt_utils.py:43-47 | failed connects before anything else only prepend their attempts and waits |
| BrokerHandshake.SuccessfulRun | backend/mqtt_utils.py:18-47 | the full trace of a successful run: attempt and wait per failure, one attempt that connects, one send per reply, then return |
| BrokerHandshake.BrokerLink.constructor | backend/mqtt_utils.py:7 | the flag starts false |
| BrokerHandshake.BrokerLink.GetAlarmConnected | backend/mqtt_utils.py:9-11 | returns the stored flag |
| BrokerHandshake.BrokerLink.SetAlarmConnected | backend/mqtt_utils.py:13-16 | stores the value and returns it |
| BrokerHandshake.BrokerLink.SendBrokerIp | backend/mqtt_utils.py:18-47 | with the flag already set it does nothing and returns; otherwise its actions follow the handshake specification from a fresh connection; the flag ends set exactly when it returned |
| BrokerHandshake.Exchange | backend/mqtt_utils.py:32-42 | over the observed outcomes of its operations, the inner send/receive loop follows the connected-phase specification: it ends acknowledged, or hands the remaining events back to the connect loop after a failure |
| JsonValue.Truncate | backend/server.py:62 | `int()` of a float truncates toward zero: the result lies within 1 of the value, on the zero side |
| JsonValue.PyInt | backend/server.py:62 | `int(v)` is the integer itself for an int and raises for `None`, lists and dicts |
| JsonValue.PyFloat | data_analysis/server.py:69 | `float(v)` is the value for numbers and raises for `None`, lists and dicts |
| JsonValue.Index | backend/server.py:53 | `v[key]` succeeds iff `v` is a dict holding `key`, and then is its member |
| JsonValue.Get | backend/server.py:70 | `v.get(key)` fails iff `v` is not a dict; a missing key gives `None` |
| Numeric.PyIntOfIntToString | telegram_bot/bot.py:58 | `int(str(i)) == i` for every integer |
| Numeric.PyFloatOfIntToString | data_analysis/server.py:69 | `float(str(i)) == i` for every integer |
| Numeric.JsParseFloatOfIntToString | frontend/src/components/SettingsModal.jsx:31 | `parseFloat(String(i)) == i` for every integer |
| BackendServer.OnMessage | backend/server.py:45-76 | invalid JSON is dropped and a payload without `sensor_name` raises, both with the flag unchanged; `trigger_alarm` sets the flag, `stop_alarm` clears it, and only those change it; sensor messages store `int(state)` or log the error; other topics change nothing |
| BackendServer.FirstSuccess | backend/server.py:93-102 | the first attempt after which the connect callback has run; no earlier attempt succeeded |
| BackendServer.RetrySleeps | backend/server.py:93-102 | each attempt is followed by a 5 s wait if it raised and a 2 s wait if it returned |
| BackendServer.Backend.constructor | backend/server.py:33-34 | both flags start false |
| BackendServer.Backend.HandleMessage | backend/server.py:45-76 | the callback sets the flag and reports the outcome exactly as `OnMessage` says, and appends to the store exactly the states it wrote |
| BackendServer.Backend.OnConnect | backend/server.py:80-84 | subscribes to the sensor and command topics and sets `connected` |
| BackendServer.Backend.ConnectUntilConnected | backend/server.py:93-102 | attempts until the connect callback has run, with no cap: it uses attempts up to and including the first success, waits after each, and ends connected iff one succeeded |
| DelayAverage.MeanStep | data_analysis/server.py:73 | the update `(avg*(n-1)+d)/n`, with `n` the incremented count, turns the mean of the accepted delays into the mean with `d` appended |
| DelayAverage.MeanBounds | data_analysis/server.py:72-73 | the running average lies between any bounds of the accepted delays |
| DelayAverage.Classify | data_analysis/server.py:59-81 | a message is accepted iff it is on `iot_alarm/delay`, decodes, and `float(payload.get("delay"))` succeeds; the accepted delay is that float |
| DelayAverage.DelayStats.constructor | data_analysis/server.py:34-35 | average 0 and count 0, the mean of no delays |
| DelayAverage.DelayStats.HandleMqttMessage | data_analysis/server.py:59-81 | an accepted delay increments the count by one and keeps the average equal to the mean of every accepted delay; every other message changes neither |
| DelayAverage.DelayStats.GetAverageDelay | data_analysis/server.py:89-92 | returns the mean of the accepted delays with status 200 |
| SleepAccuracy.TotalSleepTime | data_analysis/sleep_accuracy.py:12-53 | `None` on a failed query or no records; otherwise the sum of the gaps after records whose state is 1, divided by 3600 |
| SleepAccuracy.LastStateIgnored | data_analysis/sleep_accuracy.py:42-44 | the last record's state never changes the total |
| SleepAccuracy.NoSleepWithoutBed | data_analysis/sleep_accuracy.py:41-47 | with no state 1 before the last record, the total is 0 |
| SleepAccuracy.SleepWithinSpan | data_analysis/sleep_accuracy.py:41-49 | for time-ordered records the total lies between 0 and the records' span, and equals the span when every state but the last is 1 |
| SleepAccuracy.Accuracy | data_analysis/sleep_accuracy.py:87 | undefined iff the truth is 0; for a positive truth at most 100, and 100 iff the measurement equals the truth |
| SleepAccuracy.AccuracyMonotone | data_analysis/sleep_accuracy.py:87 | a measurement no farther from the truth scores no lower |
| Weather.Classify | backend/weather_utils.py:26-33 | Rainy iff precipitation > 50; Sunny iff ≤ 50 and cloud < 30; Partly Cloudy iff ≤ 50 and 30 ≤ cloud ≤ 70; Cloudy iff ≤ 50 and cloud > 70 |
| Weather.LabelsDistinct | backend/weather_utils.py:26-35 | the four labels differ, so the returned text names exactly one condition |
| Weather.GetWeatherData | backend/weather_utils.py:17-38 | `None` for a status other than 200; an `IndexError` iff some hourly series is empty; otherwise (a 200 response with all four series non-empty) the label of the first hour's precipitation and cloud cover |
| Weather.FirstHourDecides | backend/weather_utils.py:21-24 | only element 0 of each series matters |
| AlarmBot.AddAlarm | telegram_bot/bot.py:29-40 | fewer than 2 arguments replies with the usage text and sends nothing; otherwise it posts `args[0]` verbatim as the time and the comma-free pieces of `args[1]`, which join back to `args[1]`, as the weekdays |
| AlarmBot.AddAlarmIgnoresExtra | telegram_bot/bot.py:36-39 | arguments after the second change nothing |
| AlarmBot.IdCommand | telegram_bot/bot.py:51-67 | `delete_alarm` and `toggle_alarm` send a request iff there is exactly one argument and `int()` accepts it; otherwise the usage text or the generic error text |
| AlarmBot.DeleteAlarmCommand | telegram_bot/bot.py:51-67 | `delete_alarm`: the usage text unless there is exactly one argument, the error text when `int()` rejects it, and otherwise a delete request for that id |
| AlarmBot.ToggleAlarmCommand | telegram_bot/bot.py:150-167 | `toggle_alarm`: the usage text unless there is exactly one argument, the error text when `int()` rejects it, and otherwise a toggle request for that id |
| AlarmBot.AlarmLine | telegram_bot/bot.py:140 | each listed alarm's line opens with `ID: ` followed by the id as `str` prints it |
| AlarmBot.IdCommandsAcceptPrintedIds | telegram_bot/bot.py:51-157 | the id a list line prints (line 140) is accepted by `delete_alarm` (lines 51-59) and `toggle_alarm` (lines 150-157) and sent back unchanged |
| AlarmBot.UpdateAlarm | telegram_bot/bot.py:69-100 | fewer than 2 arguments or a non-integer id sends nothing; `time` is in the payload iff `args[1]` has a colon, `weekdays` iff there are 3 or more arguments (split from `args[2]`); an empty payload sends nothing |
| AlarmBot.ListAlarms | telegram_bot/bot.py:132-143 | `No alarms set.` for an empty list; otherwise the header, then one `ID: …, Time: …, Weekdays: …, Active: …` line per alarm in order, each ended by a line break |
| AlarmBot.ListLines | telegram_bot/bot.py:137-140 | when no field holds a line break, the message splits back into the header, the alarm lines in order, and an empty tail |
| AlarmBot.AlarmLineSingle | telegram_bot/bot.py:140 | an alarm line holds no line break unless one of its fields does |
| AlarmList.AddAlarm | webapp/frontend/src/components/Hero.jsx:7-11 | appends one entry with id `length + 1` and keeps every earlier entry |
| AlarmList.DeleteAlarm | webapp/frontend/src/components/Hero.jsx:13-15 | keeps exactly the entries whose id differs, so every entry with the id goes, and shrinks by their number |
| AlarmList.DeleteAlarmSplits | webapp/frontend/src/components/Hero.jsx:14 | deletion works part by part, so survivors keep their order |
| AlarmList.DeleteAbsent | webapp/frontend/src/components/Hero.jsx:14 | deleting an id no entry has leaves the list unchanged |
| AlarmList.AddAfterDeleteDuplicatesId | webapp/frontend/src/components/Hero.jsx:8-14 | add, add, delete 1, add gives `[2, 2]`: ids are not unique, and deleting 2 removes both |
| AlarmList.AddAlarmFresh | webapp/frontend/src/components/Hero.jsx:7-11 | corrected add: appends an id no entry has |
| AlarmList.AddAlarmFreshKeepsIdsUnique | webapp/frontend/src/components/Hero.jsx:8 | corrected add keeps ids unique |
| AlarmList.DeleteAlarmKeepsIdsUnique | webapp/frontend/src/components/Hero.jsx:14 | delete keeps ids unique |
| AlarmClock.Initial | frontend/src/components/Alarm.jsx:4-5 | the card starts switched off, holding the text the clock shows at midnight |
| AlarmClock.HandleToggle | frontend/src/components/Alarm.jsx:7 | flips the switch and keeps the time |
| AlarmClock.HandleTimeChange | frontend/src/components/Alarm.jsx:8 | replaces the time and keeps the switch |
| AlarmClock.PadStart2 | frontend/src/components/Alarm.jsx:16-18 | `padStart(2, '0')`: a text of 2 or more is kept; a shorter one gets leading zeros up to length 2 and ends with itself |
| AlarmClock.TwoDigits | frontend/src/components/Alarm.jsx:16-18 | a number below 100, printed and padded, is two digits that read back as the number |
| AlarmClock.FormatClock | frontend/src/components/Alarm.jsx:16-18 | the clock text has at least five characters, and an hour or a minute below 10 gets a leading zero |
| AlarmClock.Rings | frontend/src/components/Alarm.jsx:20 | a tick raises the alert only for a card that is switched on and holds a time of at least five characters |
| AlarmClock.FormatClockShape | frontend/src/components/Alarm.jsx:16-18 | for hours below 24 and minutes below 60 the text has length 5, a colon at index 2, digits around it, and reads back as the same time |
| AlarmClock.RingsOnlyAtItsMinute | frontend/src/components/Alarm.jsx:20-22 | an alarm set to a printed time rings at a tick iff it is on and the tick's hour and minute are that time |
| AlarmClock.OffNeverRings | frontend/src/components/Alarm.jsx:20 | a switched-off alarm raises no alert, whatever the clock |
| AlarmClock.EveryMatchingTickRings | frontend/src/components/Alarm.jsx:13-23 | there is no dedupe: every matching tick raises an alert |
| SettingsModal.CheckSamplingRate | frontend/src/components/SettingsModal.jsx:30-38 | passes iff the parsed rate is NaN or lies in [0.01, 10], so both bounds pass; passing clears the message, failing sets it |
| SettingsModal.CheckWSize | frontend/src/components/SettingsModal.jsx:40-48 | passes iff the parsed size is NaN or positive, so fractions pass unrounded; passing clears the message, failing sets it |
| SettingsModal.TypedWholeRate | frontend/src/components/SettingsModal.jsx:31-32 | a typed whole number passes the rate check iff it is between 1 and 10 |
| SettingsModal.TypedWholeWSize | frontend/src/components/SettingsModal.jsx:41-42 | a typed whole number passes the size check iff it is positive |
| SettingsModal.NotANumberPasses | frontend/src/components/SettingsModal.jsx:30-48 | text that parses to NaN passes both checks |
| SettingsModal.SettingsDialog.constructor | frontend/src/components/SettingsModal.jsx:10-17 | every toggle off, rate 1, window size 10, volume 20, no error shown |
| SettingsModal.SettingsDialog.ValidateSamplingRate | frontend/src/components/SettingsModal.jsx:30-38 | returns the rate check and shows its message; nothing else changes |
| SettingsModal.SettingsDialog.ValidateWSize | frontend/src/components/SettingsModal.jsx:40-48 | returns the size check and shows its message; nothing else changes |
| SettingsModal.SettingsDialog.SendSamplingRate | frontend/src/components/SettingsModal.jsx:51-60 | sends `parseFloat` of the rate iff the rate passes |
| SettingsModal.SettingsDialog.SaveSettings | frontend/src/components/SettingsModal.jsx:63-83 | sends `command: "settings"`, the toggles, and the raw rate, size and volume iff both checks pass; a failing rate returns before the size is checked, so the size message stays as it was |

## Left out

- **Transport and storage.** The MQTT clients and `loop_start`, InfluxDB writes and queries, `requests` and axios, Telegram `send_message`, and sockets are not modelled. They become inputs (event and outcome sequences, query results, write success) or outputs (actions, requests, effect logs).
- **Log lines and prints.** Their text is left out. The `sleep` calls appear only as `Sleep` actions and wait lists. The 0.1 s pause in the ESP32 loop and the 1000 ms interval are one step or tick each.
- **Bot replies after a request.** The success and error texts that depend on the backend's response are not modelled. The model stops at the request a handler sends; `stop_alarm` is only that request, with no logic of its own.
- **Floating point.** Rounding in the running mean, the sleep hours and the accuracy is not modelled. Numbers are exact reals, and timestamps are whole seconds.
- **Python `int(text)` and `float(text)`.** Digit underscores, non-ASCII digits, exponents, `inf` and `nan` are not modelled. Such text is treated as a parse failure.
- **JavaScript `parseFloat`.** `Infinity` and exponents are not modelled, and NaN is `None`.
- **Whitespace.** Stripping covers ASCII and Latin-1 whitespace, not Unicode whitespace above U+00FF.
- **Weather.** Forecast values are integer percentages. A `None` or non-numeric value, which would make Python's comparison raise, is not modelled.
- **`handle_connect` in data_analysis/server.py.** It only subscribes to one topic and is not modelled.
- **The `else` branch at data_analysis/server.py:75-76.** It is unreachable, because `float()` never returns `None`, so it has no counterpart.
- **Concurrent writes to `alarm_connected`.** `BrokerLink.SendBrokerIp` reads the flag once, before its loop. The source re-reads it before every reconnect, which only differs if another thread sets it meanwhile.
- **`socket.gethostbyname` in backend/mqtt_utils.py:20.** The local IP is looked up before the `try`, so a failed lookup raises out of `send_broker_ip`, even when `alarm_connected` is already set. `BrokerLink.SendBrokerIp` takes the IP as a parameter, so that exception is not modelled and the method always returns.
- **Decode errors.** A reply that is not UTF-8 makes `.decode()` raise; it is a `Failed` event like any other exception.
- **`BackendServer.Backend.ConnectUntilConnected`.** It models the connect callback as having run or not by the end of the 2 s wait; the callback's own thread is not modelled.
- **Connection attempts in backend/server.py.** A `connect` that returns but whose callback never runs is retried, and `loop_start` is called again; repeated network threads are not modelled.
- **SettingsModal.jsx.**
  - The input handlers, the volume slider (taken as an integer), `stopActiveAlarm` and the modal's open and close animation are not modelled.
  - frontend/src/api.js defines no `stopAlarm`, `sendSamplingRate` or `sendSettings`, so those sends throw and are caught. The model records what would be sent.
  - The window-size message promises rounding that the code never does; the model follows the code.
- **Alarm.jsx props.** The card's `id` and `onDelete` props only render and delete it. The `time` and `active` props a parent passes are ignored by the component, so they are not modelled.
- **Presence detection, hysteresis and escalation, stored-alarm scheduling.** They are described for the system but implemented in none of the modelled files.

## Findings

| source | as written | input that shows it | evidently intended | confidence | as-written member | corrected member |
|---|---|---|---|---|---|---|
| webapp/frontend/src/components/Hero.jsx:8 | a new alarm's id is the list's length plus one, which can equal an id still in the list after a deletion | add, add, delete id 1, add: the list is `[2, 2]`, and deleting id 2 then removes both alarms | each new alarm gets an id no alarm in the list has | not executed | AlarmList.AddAfterDeleteDuplicatesId | AlarmList.AddAlarmFreshKeepsIdsUnique |
