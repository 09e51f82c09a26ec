# Health monitoring sketches: a verified model of the control loop

The repository holds two ESP8266 sketches that read body sensors. Each sketch publishes the readings to a Blynk dashboard and uploads them to the ThingSpeak logging service.

- `new.cpp` reads a MAX30100 pulse oximeter (heart rate and SpO2) and a DS18B20 thermometer.
  - Once a second it reads the sensors, clamps a bad temperature to 0 and publishes the valid readings.
  - Every fifteen seconds it uploads a record, unless no reading is worth sending.
- `code.cpp` reads a KY-039 analog pulse sensor and a DHT11 thermometer and hygrometer.
  - On every iteration it rescales the ADC count to a heart rate and lights an LED above a threshold.
  - It publishes all three values without any check, and uploads them every fifteen seconds.

This project models one `loop()` iteration of each sketch as a state machine over the sketch's global variables.

- **Inputs.** The sensor readings, every `millis()` reading the iteration takes, and whether `client.connect` succeeds are the inputs of a tick.
- **Outputs.** Every observable action goes into an event trace, in order:
  - `Blynk.run()` and `pox.update()`;
  - `Blynk.virtualWrite`;
  - the LED writes;
  - `client.connect`, each `client.print` and `client.stop()`.

The Dafny files are laid out as follows:

- `Board.dfy` holds what both sketches share.
  - The 32-bit `unsigned long` clock and the wrap-safe cadence test `millis() - last > interval`.
  - C integer division and Arduino's `map`.
  - Decimal printing of integers, with its inverse.
  - The event trace.
- `ThingSpeak.dfy` holds the upload format. The record is `apiKey&field1=…&field2=…&field3=…\r\n\r\n`. It is sent after nine `client.print` calls, one of which writes its `Content-Length`. The file also gives a `&`-splitting decoder that recovers the fields.
- `OximeterSketch.dfy` models `new.cpp`, and `PulseSketch.dfy` models `code.cpp`. Each has the same structure:
  - a class (`Monitor`, `PulseMonitor`) with the sketch's globals as fields;
  - one method per sketch function (`ReadSensors`, `SendToBlynk`, `SendToThingSpeak`, `Tick`, …), each proved equal to a pure specification;
  - `Step` specifies one iteration, and `Run` folds `Step` over any number of iterations;
  - the properties are proved as lemmas about `Step`, `Run` and the upload functions.

In two places `new.cpp` is at odds with itself; the model follows the statements as written.

- **Skip rule.** The comment at new.cpp:227 says an upload is sent only with valid readings. The test at new.cpp:228 looks only at the heart rate and the temperature, so an upload with a valid SpO2 and nothing else is skipped (`LogSkipRule`).
- **Temperature bound.** The read-time check at new.cpp:175 rejects only readings above 50. The publish test at new.cpp:221 requires below 50. A reading of exactly 50 is therefore stored and uploaded as field3, but never published to V3 (`FiftyDegreesStoredButNotPublished`, `LogFieldsDecode`).

## Model

| member | source | states |
|---|---|---|
| Board.Elapsed | new.cpp:151 | `millis() - last` on `unsigned long` is the true gap when the clock has not wrapped, and 2^32 minus the backwards gap when it has |
| Board.ElapsedIsTrueDuration | new.cpp:159 | whatever the stored timestamp, a clock that has advanced by d < 2^32 ms shows an elapsed time of exactly d, also across a wrap of the counter |
| Board.DueIffLongerThan | code.cpp:86 | the cadence test fires exactly when the true time since the stored timestamp strictly exceeds the interval, wherever in the counter's cycle the two readings fall |
| Board.CDiv | code.cpp:100 | the integer division inside `map` truncates toward zero: the quotient's magnitude is the quotient of the magnitudes, and its sign is the product of the operands' signs |
| Board.DecimalNat | new.cpp:253 | `client.print(postStr.length())` writes at least one decimal digit, only digits, and no leading zero |
| Board.DecimalNatRoundTrip | new.cpp:253 | reading the printed digits back gives the printed number |
| Board.DecimalInt | new.cpp:241 | `String(int)` is never empty and never contains the record separator `&` |
| Board.DecimalIntRoundTrip | new.cpp:241 | the text `String(int)` makes of the SpO2 field parses back to that integer, sign included |
| ThingSpeak.RecordLayout | new.cpp:237-244 | the record begins with the API key, ends with `\r\n\r\n`, and is 28 characters longer than the key and the three field texts together |
| ThingSpeak.RequestEvents | new.cpp:247-255 | a request is nine `client.print` calls, all prints, the last of which writes the record |
| ThingSpeak.ContentLengthMatchesBody | new.cpp:252-255 | the digits printed after `Content-Length: ` read back as the exact length of the body printed last, the trailing `\r\n\r\n` included |
| ThingSpeak.RecordDecodes | new.cpp:237-244 | when the key and the field texts hold no `&`, splitting the record at `&` gives back the key and `field1=…`, `field2=…`, `field3=…` in order |
| OximeterSketch.ClampTemperature | new.cpp:172-178 | the stored temperature lies in [0, 50], is either the raw reading or 0, and is the raw reading exactly when that reading is not rejected (or is 0 anyway) |
| OximeterSketch.BlynkPublishesExactlyTheValid | new.cpp:211-224 | V1 carries the heart rate iff 0 < hr < 200, V2 the SpO2 iff 0 < SpO2 <= 100, V3 the temperature iff 0 < t < 50, and nothing else is published |
| OximeterSketch.FiftyDegreesStoredButNotPublished | new.cpp:175-222 | a 50-degree reading passes the read-time check and is stored, but no V3 write is made for it |
| OximeterSketch.LogSkipRule | new.cpp:226-231 | the upload takes no action at all exactly when there is no valid heart rate and no positive temperature, for every SpO2 value |
| OximeterSketch.LogConnectionDiscipline | new.cpp:233-265 | past the skip check: LED high, then `connect`, …, then `client.stop()`, then LED low, on both paths; a failed connection writes nothing in between |
| OximeterSketch.LogWritesRequest | new.cpp:235-255 | on a successful connection the nine request prints, and nothing else, lie between `connect` and `client.stop()`, the record last |
| OximeterSketch.LogConnectsOnce | new.cpp:233-265 | past the skip check the LED goes high once and low once, and there is exactly one `connect` and exactly one `client.stop()` |
| OximeterSketch.LogBalanced | new.cpp:226-265 | every upload, skipped or not, calls `client.stop()` as often as `connect` (at most once) and drives the LED low as often as high |
| OximeterSketch.LogFieldsDecode | new.cpp:237-255 | the record is printed, its Content-Length is its length, and it decodes to field1 = the heart rate if in (0, 200) else 0, field2 = the SpO2 if in (0, 100] else 0, field3 = the temperature if positive else 0 |
| OximeterSketch.Sampled | new.cpp:151-156 | the 1 s block never touches `lastUpdate`, leaves every global unchanged when not due, and keeps the stored temperature within [0, 50] |
| OximeterSketch.StepPumpsFirst | new.cpp:143-148 | every iteration begins with `Blynk.run()` then `pox.update()`, each exactly once, whatever either cadence decides |
| OximeterSketch.StepSamplingCadence | new.cpp:151-156 | when more than 1000 ms have passed, the readings are stored (temperature clamped), the valid ones are published and `lastPoxUpdate` restarts; otherwise readings and `lastPoxUpdate` are unchanged and nothing is published |
| OximeterSketch.StepLoggingCadence | new.cpp:159-162 | when more than 15000 ms have passed, `lastUpdate` restarts from the later clock reading; otherwise it is unchanged and no network or send-LED action happens |
| OximeterSketch.StepUploadsWhenDue | new.cpp:159-162 | when the 15 s block is due and the sampled readings pass the skip rule, the iteration connects to the logging service |
| OximeterSketch.StepSamplingBeforeLogging | new.cpp:151-162 | within an iteration no dashboard publish follows any upload action: the 1 s block runs before the 15 s block |
| OximeterSketch.StepKeepsTemperatureInRange | new.cpp:165-178 | an iteration keeps the stored temperature within [0, 50] |
| OximeterSketch.StepReleasesConnection | new.cpp:159-162 | an iteration connects at most once, calls `client.stop()` as often as it connects, and drives the send LED low as often as high |
| OximeterSketch.NoSecondUploadWithinInterval | new.cpp:159-162 | after an iteration that uploaded, an iteration whose clock reads at most 15000 ms later takes no network action and keeps the restarted `lastUpdate` |
| OximeterSketch.RunPumpsEveryIteration | new.cpp:143-148 | over n iterations `Blynk.run()` and `pox.update()` each run exactly n times |
| OximeterSketch.RunReleasesEveryConnection | new.cpp:233-265 | over any number of iterations `client.stop()` is called as often as `connect`, and the send LED is driven low as often as high |
| OximeterSketch.RunKeepsTemperatureInRange | new.cpp:172-178 | starting in range (as the initial 0 is), the stored temperature stays within [0, 50] over any run |
| OximeterSketch.Monitor.constructor | new.cpp:139-140 | the globals start at 0, and the end of `setup()` starts both cadences from `millis()` |
| OximeterSketch.Monitor.ReadSensors | new.cpp:165-179 | heart rate and SpO2 are stored raw; the temperature is stored, then replaced by 0 when rejected, so the result is the clamped reading |
| OximeterSketch.Monitor.SendToBlynk | new.cpp:211-224 | the writes made are exactly the validity-gated publish of the stored readings |
| OximeterSketch.Monitor.SendToThingSpeak | new.cpp:226-266 | the record built by successive appends and the nine prints are exactly the upload specified above, on the skip, success and failure paths |
| OximeterSketch.Monitor.Tick | new.cpp:143-163 | one `loop()` changes the globals and emits the trace exactly as `Step` does, and keeps the stored temperature within [0, 50] |
| PulseSketch.HeartbeatBpmFormula | code.cpp:100 | for a non-negative count, `map(v, 0, 1024, 60, 100)` is v*40/1024 + 60, rounded down |
| PulseSketch.HeartbeatBpmInRange | code.cpp:100 | over map's input range [0, 1024] the rate lies in [60, 100] |
| PulseSketch.HeartbeatBpmMonotone | code.cpp:100 | the rate never decreases as the count grows |
| PulseSketch.AdcRateHundredOnlyAtFullScale | code.cpp:96-100 | every `analogRead` count (0..1024) gives a rate in [60, 100], and the rate is 100 exactly at full scale 1024: every lower count gives at most 99 |
| PulseSketch.LogConnectionDiscipline | code.cpp:133-165 | every upload connects first and calls `client.stop()` last, on both paths; when connected, the send LED is on right after `connect` and off right before `stop`; a failed connection writes nothing |
| PulseSketch.LogWritesRequest | code.cpp:134-160 | on a successful connection the nine request prints, and nothing else, lie between the LED going on and off, the record last |
| PulseSketch.LogConnectsOnce | code.cpp:133-165 | exactly one `connect` and one `client.stop()` per upload; the send LED goes on and off once each when connected and is not touched otherwise |
| PulseSketch.LogFieldsDecode | code.cpp:138-156 | the record is printed, its Content-Length is its length, and it decodes to field1 = the rate as an integer, field2 = the stored temperature and field3 = the stored humidity, NaN or not |
| PulseSketch.Sampled | code.cpp:94-124 | the reads never touch `lastUpdate` |
| PulseSketch.StepPublishesEveryIteration | code.cpp:72-83 | every iteration runs `Blynk.run()` once, sets the heartbeat LED iff the count exceeds 512, and publishes the rate (in [60, 100]), the temperature and the humidity with no validity check |
| PulseSketch.StepStoresReadingsUnchecked | code.cpp:115-124 | the DHT11 readings are stored before they are checked, so a failed read leaves NaN in the globals; the count and its rate are stored too |
| PulseSketch.StepLoggingCadence | code.cpp:86-89 | when more than 15000 ms have passed, the iteration connects and `lastUpdate` restarts from the later clock reading; otherwise `lastUpdate` is unchanged and no `connect` or `stop` happens |
| PulseSketch.StepReleasesConnection | code.cpp:86-89 | an iteration connects at most once, calls `client.stop()` as often as it connects, and drives the send LED low as often as high |
| PulseSketch.QuietUntilFifteenSeconds | code.cpp:34-35 | from `lastUpdate` = 0, a run whose every clock reading is at most 15000 ms never connects and leaves `lastUpdate` at 0 |
| PulseSketch.FirstUploadAfterFifteenSeconds | code.cpp:86-89 | from `lastUpdate` = 0, no iteration connects while the clock reads at most 15000 ms, and the next iteration connects if and only if its clock reads more than 15000 |
| PulseSketch.RunPumpsEveryIteration | code.cpp:72-74 | over n iterations `Blynk.run()` runs exactly n times |
| PulseSketch.RunReleasesEveryConnection | code.cpp:133-165 | over any number of iterations `client.stop()` is called as often as `connect`, and the send LED is driven low as often as high |
| PulseSketch.PulseMonitor.constructor | code.cpp:29-34 | the globals start at 0, and `setup()` leaves `lastUpdate` at 0 |
| PulseSketch.PulseMonitor.ReadHeartbeat | code.cpp:94-113 | the count and its rate are stored, the rate lies in [60, 100], and the LED is written high iff the count exceeds 512 |
| PulseSketch.PulseMonitor.ReadTemperatureHumidity | code.cpp:115-131 | both readings are stored as read; the check reports success iff neither is NaN |
| PulseSketch.PulseMonitor.SendToThingSpeak | code.cpp:133-165 | the record built by successive appends and the nine prints are exactly the upload specified above, on the success and failure paths |
| PulseSketch.PulseMonitor.Tick | code.cpp:72-92 | one `loop()` changes the globals and emits the trace exactly as `Step` does |

## Left out

- WiFi association (new.cpp:113-128 bounds it at 20 attempts; code.cpp:55-60 retries without bound) and `Blynk.begin`: blocking I/O before the loop starts.
- The sensor drivers (`pox.getHeartRate`, `pox.getSpO2`, `DallasTemperature`, `DHT`, `analogRead`): their results are inputs of a tick. An `analogRead(A0)` count is taken to lie in 0..1024, the range the ESP8266 SDK reports. `DEVICE_DISCONNECTED_C` is a parameter of the configuration.
- The Blynk SDK and the `WiFiClient` internals. `virtualWrite`, `connect`, `print` and `stop` are trace events, and whether `connect` succeeds is an input.
- `Serial` output, `displayReadings` (new.cpp:181-209) and the serial messages of the other functions: diagnostic printing only.
- The beat callback `onBeatDetected` (new.cpp:68-73), `delay(50)` and `delay(100)` (code.cpp:91): hardware timing. The clock advances only through the `millis()` readings given to a tick.
- `String(float)`, the text Arduino makes of a float, is an uninterpreted function in the configuration. Neither its digits nor its two-decimal rounding is modelled.
- Float arithmetic: `heartRate` and `bodyTemperature` in new.cpp are real numbers, with no NaN and no rounding. In code.cpp a reading is a real number or NaN, and no arithmetic is done on it.
- Board.ArduinoMap: Arduino's `map` is not part of this model. Its usual formula, with C division on `long`, is an assumption. The 32-bit `long` overflow of its product is not modelled; it cannot happen for counts 0..1024.
- The exact header bytes. The header lines end in a bare `\n`, not the CRLF that section 2.2 of RFC 9112 requires. The model keeps the header lines as written, but proves properties only about the body and its `Content-Length`.
- Credentials and keys (WiFi, Blynk, ThingSpeak) are parameters. Characters are counted, not UTF-8 bytes, so `Content-Length` matches `String::length()` only for an ASCII key and field texts.
- OximeterSketch.LogFieldsDecode and PulseSketch.LogFieldsDecode: the decoding holds only when the API key and the float texts contain no `&`. The sketches never escape the fields.
- OximeterSketch.StepReleasesConnection, PulseSketch.StepReleasesConnection, OximeterSketch.RunReleasesEveryConnection and PulseSketch.RunReleasesEveryConnection: these compare counts. The order within one upload (LED on before `connect`, `stop` before LED off) is stated by the `LogConnectionDiscipline` lemmas instead.
