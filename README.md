# Golioth air-quality firmware: sensor bookkeeping in Dafny

This project models the sequential logic of the air-quality reference
design. That design is Zephyr firmware that reads three sensors and reports to
Golioth:

- a BME280 for weather;
- an SCD4x for CO2;
- an SPS30 for particulate matter.

It models the logic in these areas:

- **Remote settings** (`app_settings.c`).
  - The `on_setting` callback type-checks and range-checks five keys.
  - It stores a value only when it differs from the stored one.
  - It then raises the setting's "pending hardware write" flag, or wakes the main thread for the loop delay.
- **The older main loop** (`app_work.c`).
  - It drains the pending flags: it writes the value stored now and lowers a flag only when the write returned 0.
  - It serves the one-shot fan-cleaning request.
  - It reads the three sensors without any lock and aborts the cycle at the first failed read.
  - It brings the sensors up in order.
- **Guarded drivers** (`sensor_sps30.c`, `sensor_scd4x.c`, `sensors.c`). Each device has a recursive mutex. Every operation locks it and releases it on every exit path.
  - In `sensor_scd4x.c`, bring-up takes its throw-away read while still holding the lock, so the read's own lock is a recursive acquisition.
  - In `sensor_sps30.c`, bring-up probes up to ten times. A read takes N samples. Each sample is taken under its own lock, after at most 100 data-ready queries, and the read returns the channel-wise mean.
  - `sensors.c` is an older revision of the same drivers. SCD4x bring-up releases the lock before the throw-away read takes it again. SPS30 bring-up probes once and does not start a measurement. An SPS30 read is one measurement: start, an unbounded data-ready wait, read and stop, all under one lock.
- **The newer read cycle** (`app_sensors.c`).
  - It reads all three sensors whatever fails, keeping the last good values in static buffers.
  - It streams those values only when a buffer could be allocated and the client is connected.
- **The LightDB State handler** (`app_state.c`).
  - A desired `warning_indicator` is applied, ignored or rejected.
  - The actual state is reported once per `app_state_init`.

Each C file is one module, and a file whose functions update globals is a
class:

| C file | module | state |
|---|---|---|
| `app_settings.c` | `AppSettings` | `SettingsStore` |
| `app_work.c` | `AppWork` | `Work` |
| `sensor_sps30.c` | `SensorSps30` | `Sps30` |
| `sensor_scd4x.c` | `SensorScd4x` | `Scd4x` |
| `sensors.c` | `Sensors` | `Devices` |
| `app_state.c` | `AppState` | `State` |
| `app_sensors.c` | `AppSensors` | `Cycle` |
| `sensor_bme280.c` | `SensorBme280` | none |

The files come from different revisions of the firmware. They are not linked
together, except that `app_work.c` uses the flags of `app_settings.c`, and
`app_sensors.c` uses the newest drivers.

Several support modules model what the firmware calls into:

- **`Zephyr`** is a recursive mutex and a counting semaphore.
  - The mutex keeps the kernel's lock count and counts acquisitions and releases.
  - A timed lock fails nondeterministically, and only when the caller does not already hold the mutex. The failure stands for another thread holding it for the whole timeout.
- **`SensorBus`** stands for the Sensirion and Zephyr sensor drivers.
  - Each driver call returns a status the model cannot predict.
  - Each call appends a `Transaction` to a log. A transaction records the command, the status, the reply and how many times the device's mutex was held when the call was issued.
- **`Golioth`** is the cloud client. It records the requests and returns unpredictable statuses.
- **`Transcripts`** defines the shapes of transaction sequences, stated once, independently of the code that issues them:
  - stopped at the first failure;
  - polled until ready;
  - polled at most n times;
  - phases of a measurement.

Every operation's contract states:

- the exact transactions it appended;
- their shape and lock depth;
- what it returns;
- what it writes;
- how the mutex's counters moved.

Lock balance appears as an unchanged lock count with equal numbers of acquisitions and releases. `Mutex.Unlock` requires the mutex to be held, so verification also shows that no path unlocks a mutex it did not lock.

## Model

| member | source | states |
|---|---|---|
| Stdint.ToUint16 | src/app_settings.c:128-133 | `(uint16_t)` leaves 0..65535 unchanged and maps a negative int16 to itself plus 65536 |
| Stdint.Uint16CastRoundTrip | src/app_settings.c:121-133 | On the int16 range, reading the uint16 cast back as an int16 gives the original value |
| Stdint.Uint16CastInjective | src/app_settings.c:128-133 | Two int16 values have the same uint16 cast exactly when they are equal |
| Zephyr.Mutex.Lock | src/sensor_scd4x.c:30-35 | A lock fails only when the caller does not already hold the mutex and the timeout is finite; then it returns -EAGAIN (-EBUSY without waiting) and changes nothing; otherwise the lock count and the acquisitions grow by one |
| Zephyr.Mutex.Unlock | src/sensor_scd4x.c:76-78 | Only the holder unlocks; the lock count drops by one and the releases grow by one |
| Zephyr.Semaphore.Give | src/app_state.c:24-46 | The count grows by one unless it is at the limit |
| Zephyr.Semaphore.TryTake | src/app_state.c:141 | A unit is taken, returning 0, exactly when the count was positive; otherwise -EBUSY and the count stays 0 |
| Golioth.Client.Send | src/app_state.c:58-60 | A request is appended to the client's calls with the status the client returns; the connection flag does not move |
| Golioth.Client.IsConnected | src/app_sensors.c:137 | Returns the client's connection flag |
| Polling.AwaitReady | src/sensor_scd4x.c:113-122 | The unbounded data-ready wait: queries at the given lock depth that all answered "not ready" except the last, which answered "ready" or failed; returns the last query's status |
| Polling.ReadPmAndStop | src/sensors.c:394-439 | Read one SPS30 sample, then stop measurement only if the read succeeded; the sample is handed back whenever the read succeeded, even when stopping fails; returns the last call's status |
| SensorBme280.Init | src/sensor_bme280.c:16-32 | -ENODEV when the device node is missing or not ready, otherwise 0 |
| SensorBme280.Read | src/sensor_bme280.c:34-51 | One unguarded sample fetch; its status is returned and the three channels are written only when it returned 0 |
| Transcripts.StoppedAtFirstFailureOutcome | src/app_work.c:140-180 | A straight-line sequence that returns at the first failure ends with status 0 exactly when every command ran and returned 0 |
| Transcripts.PmReadOutcome | src/sensors.c:367-444 | An SPS30 measurement returns 0 exactly when the read and the stop both succeeded, and it returns an error after a successful read exactly when stopping failed |
| Transcripts.Scd4xInitOkIff | src/sensors.c:90-152 | SCD4x bring-up with the throw-away read after the lock was released returns 0 exactly when all four set-up calls and the throw-away read returned 0 |
| Transcripts.PhasesAreSingleMeasurement | src/app_work.c:85-138 | A measurement cut into start, wait and read phases is, as a flat transaction sequence, exactly one start, an unbounded wait and the read with its trailing calls |
| Transcripts.StatusIsLastCall | src/app_work.c:85-138 | What a measurement returns is the status of the last driver call it made |
| AppSettings.ParamOf | src/app_settings.c:56-195 | Exactly the five keys are recognised, each naming its own setting |
| AppSettings.Set | src/app_settings.c:76-184 | Storing a setting changes that setting's global and no other |
| AppSettings.Raise | src/app_settings.c:108-189 | A changed hardware setting raises its own pending flag and no other; the loop delay raises none |
| AppSettings.Check | src/app_settings.c:59-176 | A rejection is FORMAT_NOT_VALID or OUTSIDE_RANGE; FORMAT_NOT_VALID exactly for the wrong value type (bool for the ASC flag, INT64 otherwise); an accepted value fits its global's C type |
| AppSettings.SettingsStore.constructor | src/app_settings.c:14-24 | Boot state: loop delay 60, offset 0, altitude 0, ASC on, cleaning interval 604800, all four pending flags raised, no wake-up yet |
| AppSettings.SettingsStore.OnSetting | src/app_settings.c:51-196 | The status, the new globals and flags, and the wake-up count are exactly those of `Respond`, the per-key specification |
| AppSettings.SettingsStore.OnLoopDelay | src/app_settings.c:56-82 | As `Update` for the loop delay: INT64 in [1, 43200], stored and waking the main thread only when changed |
| AppSettings.SettingsStore.OnTemperatureOffset | src/app_settings.c:84-111 | As `Update` for the offset: INT64 in the int32 range, stored and flagged only when changed |
| AppSettings.SettingsStore.OnAltitude | src/app_settings.c:113-140 | As `Update` for the altitude: INT64 in the int16 range, stored as its uint16 cast and flagged only when that differs |
| AppSettings.SettingsStore.OnAsc | src/app_settings.c:142-162 | As `Update` for the ASC flag: a bool, stored and flagged only when changed |
| AppSettings.SettingsStore.OnCleaningInterval | src/app_settings.c:164-192 | As `Update` for the cleaning interval: INT64 in [0, UINT32_MAX], stored and flagged only when changed |
| AppSettings.AcceptedIffInRange | src/app_settings.c:64-176 | A numeric setting given as INT64 succeeds exactly when it lies in its interval, and is OUTSIDE_RANGE otherwise |
| AppSettings.LoopDelayEndPoints | src/app_settings.c:56-68 | 1 and 43200 are accepted as loop delays, 0 and 43201 are OUTSIDE_RANGE, and a string for the ASC flag is FORMAT_NOT_VALID |
| AppSettings.WrongTypeIsFormatNotValid | src/app_settings.c:59-169 | A value of the wrong type returns FORMAT_NOT_VALID and leaves every value and flag as it was, with no wake-up |
| AppSettings.RejectionChangesNothing | src/app_settings.c:59-195 | Every non-success leaves the store unchanged and wakes nobody; an unknown key returns KEY_NOT_RECOGNIZED |
| AppSettings.UnchangedValueIsQuiet | src/app_settings.c:71-182 | An accepted value equal to the stored one returns SUCCESS and changes nothing |
| AppSettings.ChangedValueRaisesOwnFlag | src/app_settings.c:75-190 | An accepted changed value is stored and raises its own flag only; the thread is woken exactly for the loop delay |
| AppSettings.SecondSubmissionIsQuiet | src/app_settings.c:71-182 | Submitting an accepted value a second time succeeds and changes nothing, so a flag is raised at most once |
| AppSettings.AltitudeChangeDetectionExact | src/app_settings.c:128-133 | Two accepted altitudes are stored alike exactly when they are equal |
| AppSettings.BurstKeepsLatest | src/app_settings.c:98-190 | After a burst of accepted values for one hardware setting, the last one is stored, its flag is raised if it was before or the value moved, and no other setting moved |
| AppWork.DrainWritesPending | src/app_work.c:328-378 | A drain issues exactly the writes of the raised flags, in order, each carrying the value stored at drain time |
| AppWork.DrainUnlocked | src/app_work.c:320-379 | None of a drain's writes is issued under a lock |
| AppWork.DrainLowersExactlySucceeded | src/app_work.c:328-378 | After a drain a flag is still raised exactly when it was raised and no write of its value succeeded; stored values do not move |
| AppWork.FailedWriteIsRetried | src/app_work.c:330-338 | A failed write leaves its flag raised, so the next drain writes that setting again |
| AppWork.NextDrainWritesLatest | src/app_work.c:328-369 | Several accepted updates before one drain lead to a single write, carrying the last value |
| AppWork.Work.constructor | src/app_work.c:483-486 | The client given to `app_work_init` is the one the cycle publishes through; the fan-cleaning request starts as given |
| AppWork.Work.Bme280Read | src/app_work.c:58-83 | One unlocked sample fetch; returns its status; the channels are written only when it returned 0 |
| AppWork.Work.Scd4xRead | src/app_work.c:85-138 | Single shot, unbounded wait and read, each reached only after the one before succeeded, all unlocked; the output is written only for a successful non-zero CO2 sample |
| AppWork.Work.Scd4xPrepare | src/app_work.c:152-180 | Wake up, stop periodic measurement, reinit and serial number, stopping at the first failure; returns the last status |
| AppWork.Work.Scd4xInit | src/app_work.c:140-187 | The set-up calls, then the throw-away read only if all of them succeeded; returns the read's status, else the failed call's |
| AppWork.Work.Sps30Read | src/app_work.c:189-246 | Start, unbounded wait, read, stop, each reached only after the one before succeeded; the sample is written once the read succeeds, even when stopping fails |
| AppWork.Work.Sps30CleanFan | src/app_work.c:248-276 | Start measurement, manual cleaning and stop, up to the first failure; returns the last status |
| AppWork.Work.Sps30Init | src/app_work.c:278-318 | Reset, one probe, firmware version and serial number, up to the first failure; returns the last status |
| AppWork.Work.UpdateSensorSettings | src/app_work.c:320-379 | The traffic is a drain of the store as it was; the flags left are exactly `AfterDrain`'s; values and wake-ups do not move |
| AppWork.Work.WritePending | src/app_work.c:328-339 | One block: with the flag raised, one unlocked write of the value stored now, lowering the flag only if it returned 0; otherwise nothing |
| AppWork.Work.ServiceRpcRequests | src/app_work.c:381-390 | A raised request runs one unlocked fan cleaning and is cleared whatever it returned; without a request nothing is issued |
| AppWork.Work.Upkeep | src/app_work.c:405-409 | A drain of the store as it was, then the request service, with the store and the request flag left as those two promise |
| AppWork.Work.ReadAndPublish | src/app_work.c:413-474 | BME280, then SCD4x, then SPS30, each read only if the one before returned 0; exactly one "sensor" push, carrying the three samples, iff all three succeeded; otherwise no push |
| AppWork.Work.SensorRead | src/app_work.c:394-481 | Drain and service, read and publish, and, only if every read succeeded, drain and service again; the final flags are those of one or two drains; the second service runs a fan cleaning exactly when the request was raised again (by the RPC handler) during the reads, and an unserved request stays raised |
| AppWork.Work.Init | src/app_work.c:483-512 | Nothing is issued when the BME280 is missing or not ready; otherwise SCD4x bring-up, and the SPS30 bring-up exactly when that returned 0 |
| SensorSps30.MeanOfConstant | src/sensor_sps30.c:154-180 | Averaging samples that all agree gives that sample back |
| SensorSps30.Samples | src/sensor_sps30.c:145-163 | The samples of the passes, one per pass, in order |
| SensorSps30.RunningSumIsSum | src/sensor_sps30.c:154-163 | The loop's running sum is the channel-wise sum of the samples read |
| SensorSps30.NotReadyAfterAllTries | src/sensor_sps30.c:120-143 | A pass gives up with -1 and no read exactly when all 100 queries succeeded and said "not ready" |
| SensorSps30.PollBudget | src/sensor_sps30.c:120-137 | A read makes at most 100 data-ready queries per sample |
| SensorSps30.InitOkIffMeasuring | src/sensor_sps30.c:22-95 | Bring-up returns 0 exactly when the lock was taken and start measurement succeeded |
| SensorSps30.Sps30.constructor | src/sensor_sps30.c:20 | The mutex starts unlocked with no acquisitions or releases |
| SensorSps30.Sps30.Init | src/sensor_sps30.c:22-95 | A lock time-out returns -EAGAIN with nothing issued; otherwise bring-up runs at depth one more than before and the mutex is released once |
| SensorSps30.Sps30.BringUp | src/sensor_sps30.c:38-88 | Reset, probes, firmware version, serial number and start measurement, each only after the one before succeeded |
| SensorSps30.Sps30.Probe | src/sensor_sps30.c:46-62 | At most ten probes, stopping at the first that succeeds; returns the last probe's status |
| SensorSps30.Sps30.Identify | src/sensor_sps30.c:64-87 | Firmware version, serial number and start measurement, up to the first failure |
| SensorSps30.Sps30.Sample | src/sensor_sps30.c:111-152 | One pass under its own lock, with at most 100 queries and a read exactly when the flag came up; the mutex is back to its count on every exit |
| SensorSps30.Sps30.Accumulate | src/sensor_sps30.c:110-169 | One pass appended to the passes so far; when it returned 0, all passes passed and the sum is the running sum |
| SensorSps30.Sps30.Read | src/sensor_sps30.c:97-195 | Up to N passes, stopping at the first failure, which is returned with nothing written; on success the output is the channel-wise mean of the N samples; lock count unchanged, acquisitions equal releases |
| SensorSps30.Sps30.SetFanAutoCleaningInterval | src/sensor_sps30.c:217-239 | Lock time-out: -EAGAIN with nothing issued; otherwise one write under the lock, whose status is returned; exactly one acquisition and one release, and none on a time-out |
| SensorSps30.Sps30.CleanFan | src/sensor_sps30.c:241-267 | Lock time-out: -EAGAIN with nothing issued; otherwise one manual-cleaning command under the lock, whose status is returned; exactly one acquisition and one release, and none on a time-out |
| SensorScd4x.InitOkIffAllSucceeded | src/sensor_scd4x.c:22-81 | Bring-up returns 0 exactly when the lock was taken, all four set-up calls succeeded and the throw-away read returned 0 |
| SensorScd4x.ReadOkIffReadSucceeded | src/sensor_scd4x.c:124-134 | A read returns 0 exactly when all its phases succeeded; a zero CO2 sample is such a success yet nothing is written |
| SensorScd4x.Scd4x.constructor | src/sensor_scd4x.c:20 | The mutex starts unlocked with no acquisitions or releases |
| SensorScd4x.Scd4x.Read | src/sensor_scd4x.c:83-146 | Lock time-out: -EAGAIN, nothing issued, nothing written; otherwise one guarded measurement; the output is written only for a successful non-zero sample |
| SensorScd4x.Scd4x.Measure | src/sensor_scd4x.c:101-141 | Single shot, unbounded wait and read at the current lock depth, each after the one before succeeded; milli-units are divided by 1000 |
| SensorScd4x.Scd4x.Init | src/sensor_scd4x.c:22-81 | Lock time-out: -EAGAIN with nothing issued; otherwise set-up calls at depth d+1 and the throw-away read at depth d+2; the count returns to its entry value, with two acquisitions and two releases when the throw-away read ran, one of each when it did not, and none on a time-out |
| SensorScd4x.Scd4x.BringUp | src/sensor_scd4x.c:37-76 | Set-up calls, then, only if all succeeded, the throw-away read, a recursive acquisition that cannot time out |
| SensorScd4x.Scd4x.Prepare | src/sensor_scd4x.c:41-69 | Wake up, stop periodic measurement, reinit and serial number, stopping at the first failure |
| SensorScd4x.Scd4x.Configure | src/sensor_scd4x.c:155-176 | One setting write under the lock, whose status is returned; the lock is released whatever it returned; exactly one acquisition and one release, and none on a time-out |
| SensorScd4x.Scd4x.SetTemperatureOffset | src/sensor_scd4x.c:155-176 | As `Configure` for the temperature offset |
| SensorScd4x.Scd4x.SetSensorAltitude | src/sensor_scd4x.c:178-199 | As `Configure` for the altitude |
| SensorScd4x.Scd4x.SetAutomaticSelfCalibration | src/sensor_scd4x.c:201-226 | As `Configure` for the self-calibration flag |
| Sensors.Devices.constructor | src/sensors.c:18-20 | Three unlocked mutexes |
| Sensors.Devices.Bme280Init | src/sensors.c:24-51 | -ENODEV when the device is missing or not ready, else 0; the mutex is taken and released once |
| Sensors.Devices.Bme280Read | src/sensors.c:53-88 | One fetch under the lock; its status is returned; channels are written only on 0; one acquisition, one release |
| Sensors.Devices.Scd4xInit | src/sensors.c:90-152 | Set-up calls under the lock, which is released before the throw-away read takes it again at the same depth; two acquisitions and releases with the read, one without |
| Sensors.Devices.Scd4xPrepare | src/sensors.c:107-142 | Wake up, stop periodic measurement, reinit and serial number, up to the first failure |
| Sensors.Devices.Scd4xRead | src/sensors.c:154-224 | One measurement under the lock, with one acquisition and one release on every path; output only for a successful non-zero sample |
| Sensors.Devices.Scd4xMeasure | src/sensors.c:168-219 | Single shot, unbounded wait and read at the current depth |
| Sensors.Devices.Scd4xConfigure | src/sensors.c:226-247 | One write under the lock, its status returned, one acquisition and one release |
| Sensors.Devices.Scd4xSetTemperatureOffset | src/sensors.c:226-247 | As `Scd4xConfigure` for the offset |
| Sensors.Devices.Scd4xSetSensorAltitude | src/sensors.c:249-270 | As `Scd4xConfigure` for the altitude |
| Sensors.Devices.Scd4xSetAutomaticSelfCalibration | src/sensors.c:272-296 | As `Scd4xConfigure` for the self-calibration flag |
| Sensors.Devices.Sps30Init | src/sensors.c:298-353 | Reset, one probe, firmware version and serial number under the lock, up to the first failure; one acquisition, one release |
| Sensors.Devices.Sps30BringUp | src/sensors.c:311-347 | The same four calls at the current depth |
| Sensors.Devices.Sps30Read | src/sensors.c:355-445 | One measurement under the lock; the output is written once the read succeeds, even when stopping then fails; one acquisition, one release |
| Sensors.Devices.Sps30Measure | src/sensors.c:367-439 | Start, unbounded wait, read and stop at the current depth, each after the one before succeeded |
| Sensors.Devices.Sps30SetFanAutoCleaningInterval | src/sensors.c:447-468 | One write under the lock, its status returned, one acquisition and one release |
| Sensors.Devices.Sps30CleanFan | src/sensors.c:470-512 | Start, manual cleaning and stop under the lock, up to the first failure; one acquisition, one release |
| Sensors.Devices.Sps30Clean | src/sensors.c:480-506 | The same three calls at the current depth |
| AppState.Expected | src/app_state.c:80-129 | A response error is returned with no change; otherwise status 0; the indicator changes only to an applied 0 or 1; the actual state is reported iff a value was applied; the desired state is reset iff the parse failed or a value was applied or rejected |
| AppState.ReportsAtMostOncePerInit | src/app_state.c:131-144 | Over any series of inits and observes, the actual state is reported at most once per init, plus the unit the semaphore held |
| AppState.InitThenObserveReportsOnce | src/app_state.c:44-47 | After an init, the first observe reports and the later ones do not |
| AppState.NoUnitNoReport | src/app_state.c:141-143 | With the semaphore empty, observes report nothing |
| AppState.State.constructor | src/app_state.c:20-24 | Indicator 0 and an empty semaphore with limit 1 |
| AppState.State.SetWarningIndicator | src/app_state.c:26-29 | The indicator becomes the value |
| AppState.State.Init | src/app_state.c:44-47 | One unit is given to the semaphore, up to its limit |
| AppState.State.ResetDesiredState | src/app_state.c:49-64 | One write of -1 to the desired endpoint |
| AppState.State.UpdateActual | src/app_state.c:66-78 | One write of the current indicator to the actual endpoint |
| AppState.State.DesiredHandler | src/app_state.c:80-129 | With its uint8 counters, the handler's status, indicator and requests are exactly `Expected`'s |
| AppState.State.Observe | src/app_state.c:131-144 | One observe of the desired endpoint, then one report of the actual state exactly when a semaphore unit was taken |
| AppSensors.Cycle.constructor | src/app_sensors.c:200-203 | The client and drivers are in place, the static measurement buffers declared at lines 83-85 start zeroed and no JSON buffer is allocated |
| AppSensors.Cycle.Init | src/app_sensors.c:55-65 | BME280, SCD4x and SPS30 bring-ups in that order, each whatever the one before returned |
| AppSensors.Cycle.ReadAndStream | src/app_sensors.c:80-198 | All three sensors are read in order whatever fails; each buffer changes only on its own successful read; at most one "sensor" push of the buffered values, exactly when the buffer was allocated and the client connected; no buffer leaks |
| AppSensors.Cycle.ReadWeather | src/app_sensors.c:105-111 | The weather buffer is overwritten only by a successful fetch |
| AppSensors.Cycle.ReadCo2 | src/app_sensors.c:113-119 | The CO2 buffer is overwritten only by a successful non-zero sample |
| AppSensors.Cycle.ReadPm | src/app_sensors.c:121-127 | The PM buffer becomes the mean of the samples when the last pass succeeded, otherwise it keeps its value |
| AppSensors.Cycle.Stream | src/app_sensors.c:130-197 | Allocation failure sends nothing; otherwise exactly one push when connected and none when not; the buffer is freed on every path |

## Left out

- I/O, sleeps and logging are not modelled; the driver calls are opaque, with unpredictable statuses and samples. This also leaves out the BME280 "not found" log lines at src/sensors.c:34, src/sensor_bme280.c:22 and src/app_work.c:492, which format the name of a null device pointer.
- JSON formatting and `json_obj_parse` are not modelled. The parse result is an input: a return code, and a value when the field bit is set.
- Floating point is not modelled: the drivers' floats and `sensor_value` conversions are reals, and the mean is proved over reals, not IEEE arithmetic.
- Concurrency is not modelled: the model is sequential. Another thread appears in two places only: it can make a timed lock fail, and the RPC handler may raise the fan-cleaning request while `app_work_sensor_read` reads the sensors. Interleavings of the settings callback with the drain, and the async response handlers (`async_handler` with its LED, `async_error_handler`), are not modelled.
- The Ostentus display and battery-monitor blocks of `app_sensors.c` are not modelled; they are demo peripherals with no logic to prove.
- `wake_system_thread` is counted, not modelled; main.c is not part of this model.
- `app_register_settings` and `app_sensors_set_client` are not modelled beyond their constructors. Both only hand the client to the library or to a global.
- The getters of `app_settings.c` are not modelled as separate members. Each is a read of a class field.
- `get_sps30_samples_per_measurement_s` is defined outside the modelled files; its value is a parameter.
- SensorSps30.Sps30.Read: requires at least one sample. With zero samples the C code divides by zero and returns an uninitialised `err` (src/sensor_sps30.c:109-110, 171, 194).
- SensorSps30.Sps30.Read: states acquisitions equal releases and at most one per pass, rather than exactly one per pass that took the lock.
- Polling.AwaitReady: the unbounded data-ready waits terminate because the bus model's device becomes ready after an arbitrary finite number of queries. A device that never answers "ready" hangs the C code; the model does not represent that.
- Zephyr.Mutex.Unlock: requires the mutex to be held. The kernel's error return for an unlock without a lock is not modelled, since no path of the firmware reaches it.
- AppWork.Work.ReadAndPublish: when the SCD4x read returns 0 for a zero CO2 sample, the C code publishes an uninitialised local. The model publishes an arbitrary value, and states the pushed CO2 only when a sample was written.
- AppWork.Work.SensorRead: the RPC handler's write of the fan-cleaning request is modelled at one point, between the reads and the second service; a request raised during the first drain or service is not modelled.
- AppState.State.UpdateActual: the model sends the `uint32_t` indicator itself. The C code formats it with `%d`, which prints a value above INT32_MAX as a negative number; that rendering is not modelled. `set_warning_indicator` stores any `uint32_t`, and its callers are not part of this model.
- AppState.DesiredEndpoint and AppState.ActualEndpoint: the endpoint strings are defined in app_state.h, which is not part of this model. The model only needs them to be distinct.
- AppSensors.Cycle.Stream: a failed `malloc` is a nondeterministic choice, and the heap is abstracted to a count of live buffers.
- Some C functions are split into helpers with their own contracts. Each helper is one stretch of a single C function:
  - `WritePending`, `Upkeep` and `ReadAndPublish` in `app_work.c`;
  - `Prepare`, `Measure` and `BringUp` in the two drivers;
  - `Probe`, `Identify`, `Sample` and `Accumulate` in `sensor_sps30.c`;
  - the `Scd4x*`/`Sps30*` helpers of `Sensors.Devices`;
  - `ReadWeather`, `ReadCo2`, `ReadPm` and `Stream` in `app_sensors.c`;
  - `ReadPmAndStop` in `Polling`.
