/** The pulse-oximeter sketch (new.cpp): a MAX30100 pulse oximeter and a DS18B20
    thermometer, a dashboard publish once a second and a logging upload every
    fifteen seconds, driven by `loop()`.

    One call of `loop()` is `Monitor.Tick`; its effect on the sketch's globals
    and the actions it takes are given by the pure `Step`, and `Run` chains
    `Step` over many iterations. The sensor drivers, the clock and the outcome
    of `client.connect` are inputs of a tick; the actions are an event trace. */
module OximeterSketch {
  import opened Board
  import ThingSpeak

  /** `poxReportInterval`: the sampling and dashboard cadence, in ms. */
  const PoxReportInterval: nat := 1000
  /** `updateInterval`: the logging cadence, in ms. */
  const UpdateInterval: nat := 15000

  /** What the sketch fixes at build time: the logging API key, the driver's
      "disconnected" reading `DEVICE_DISCONNECTED_C`, and `String(float)`, the
      text the Arduino library makes of a float (left uninterpreted). */
  datatype Config = Config(apiKey: string, disconnectedC: real, showFloat: Float -> string)

  /** The sketch's globals. */
  datatype Snapshot = Snapshot(
    heartRate: real,
    spO2: u8,
    bodyTemperature: real,
    lastUpdate: u32,
    lastPoxUpdate: u32)

  /** Everything from outside that one `loop()` call sees, in the order it is
      read: `millis()` for the sampling test, the three driver readings, the
      `millis()` that restarts the sampling cadence, `millis()` for the logging
      test, whether `client.connect` succeeds, and the `millis()` that restarts
      the logging cadence. */
  datatype TickInput = TickInput(
    pollCheck: u32,
    heartRate: real,
    spO2: u8,
    rawTemperature: real,
    pollReset: u32,
    logCheck: u32,
    connected: bool,
    logReset: u32)

  datatype Outcome = Outcome(after: Snapshot, trace: seq<Event>)

  // ----- validity of the stored readings -----

  predicate HeartRateValid(hr: real)
  {
    0.0 < hr < 200.0
  }

  predicate SpO2Valid(x: u8)
  {
    0 < x <= 100
  }

  /** The dashboard's bound on temperature: strictly between 0 and 50. */
  predicate TemperatureSendable(t: real)
  {
    0.0 < t < 50.0
  }

  /** The read-time rejection of a thermometer reading. */
  predicate TemperatureRejected(raw: real, disconnectedC: real)
  {
    raw == disconnectedC || raw < 0.0 || raw > 50.0
  }

  /** The temperature `readSensors` stores for a raw reading. */
  function ClampTemperature(raw: real, disconnectedC: real): (t: real)
    ensures 0.0 <= t <= 50.0
    ensures t == raw || t == 0.0
    ensures t == raw <==> !TemperatureRejected(raw, disconnectedC) || raw == 0.0
  {
    if TemperatureRejected(raw, disconnectedC) then 0.0 else raw
  }

  // ----- dashboard publish -----

  /** The `Blynk.virtualWrite` calls of `sendToBlynk` for the stored readings. */
  function BlynkEvents(hr: real, spO2: u8, temp: real): (evs: seq<Event>)
    ensures |evs| <= 3 && forall e :: e in evs ==> e.VirtualWrite?
  {
    (if HeartRateValid(hr) then [VirtualWrite(V1, FloatValue(Num(hr)))] else [])
    + (if SpO2Valid(spO2) then [VirtualWrite(V2, IntValue(spO2 as int))] else [])
    + (if TemperatureSendable(temp) then [VirtualWrite(V3, FloatValue(Num(temp)))] else [])
  }

  /** Each channel is published, with its stored value, exactly when it is
      valid, and nothing else is published. */
  lemma BlynkPublishesExactlyTheValid(hr: real, spO2: u8, temp: real)
    ensures var evs := BlynkEvents(hr, spO2, temp);
      && (VirtualWrite(V1, FloatValue(Num(hr))) in evs <==> HeartRateValid(hr))
      && (VirtualWrite(V2, IntValue(spO2 as int)) in evs <==> SpO2Valid(spO2))
      && (VirtualWrite(V3, FloatValue(Num(temp))) in evs <==> TemperatureSendable(temp))
      && forall e :: e in evs ==>
           || (e == VirtualWrite(V1, FloatValue(Num(hr))) && HeartRateValid(hr))
           || (e == VirtualWrite(V2, IntValue(spO2 as int)) && SpO2Valid(spO2))
           || (e == VirtualWrite(V3, FloatValue(Num(temp))) && TemperatureSendable(temp))
  {
  }

  /** A reading of exactly 50 degrees survives the read-time check and is
      stored, yet is never published on V3 (it is still logged: see
      `LogFieldsDecode`). */
  lemma FiftyDegreesStoredButNotPublished(hr: real, spO2: u8, disconnectedC: real)
    requires disconnectedC != 50.0
    ensures ClampTemperature(50.0, disconnectedC) == 50.0
    ensures forall e :: e in BlynkEvents(hr, spO2, 50.0) ==> e.pin != V3
  {
  }

  // ----- logging upload -----

  /** The skip rule of `sendToThingSpeak`: no valid heart rate and no positive
      temperature. SpO2 plays no part in it. */
  predicate SkipLogging(hr: real, temp: real)
  {
    (hr <= 0.0 || hr >= 200.0) && temp <= 0.0
  }

  /** field1: the heart rate when valid, else 0, printed as a float. */
  function Field1(cfg: Config, hr: real): string
  {
    cfg.showFloat(Num(if HeartRateValid(hr) then hr else 0.0))
  }

  /** field2: the SpO2 when valid, else 0, printed as an integer. */
  function Field2(spO2: u8): string
  {
    DecimalInt(if SpO2Valid(spO2) then spO2 as int else 0)
  }

  /** field3: the temperature when positive, else 0, printed as a float. */
  function Field3(cfg: Config, temp: real): string
  {
    cfg.showFloat(Num(if temp > 0.0 then temp else 0.0))
  }

  function LogBody(cfg: Config, hr: real, spO2: u8, temp: real): string
  {
    ThingSpeak.Record(cfg.apiKey, Field1(cfg, hr), Field2(spO2), Field3(cfg, temp))
  }

  /** The actions of `sendToThingSpeak`: nothing at all when skipped; otherwise
      the send LED on, one connection attempt, the request when connected,
      then `client.stop()` and the send LED off on either path. */
  function LogEvents(cfg: Config, hr: real, spO2: u8, temp: real, connected: bool): (evs: seq<Event>)
    ensures forall e :: e in evs ==> ThingSpeak.IsLogAction(e)
  {
    if SkipLogging(hr, temp) then []
    else Session(if connected then ThingSpeak.RequestEvents(cfg.apiKey, LogBody(cfg, hr, spO2, temp)) else [])
  }

  /** A connection attempt scoped by the send LED, with what is written
      inside it. */
  function Session(request: seq<Event>): (evs: seq<Event>)
  {
    [SendLed(true), Connect(ThingSpeak.Host, ThingSpeak.Port)] + request + [Stop, SendLed(false)]
  }

  /** The upload does nothing exactly when the skip rule holds, whatever the
      SpO2 and whatever the connection would do. */
  lemma LogSkipRule(cfg: Config, hr: real, spO2: u8, temp: real, connected: bool)
    ensures LogEvents(cfg, hr, spO2, temp, connected) == [] <==> SkipLogging(hr, temp)
    ensures forall other: u8 :: LogEvents(cfg, hr, other, temp, connected) == [] <==> SkipLogging(hr, temp)
  {
  }


  /** The shape of a connection scoped by the send LED, whatever is written
      inside it. */
  lemma ScopedConnection(request: seq<Event>)
    requires forall e :: e in request ==> e.Print?
    ensures var evs := Session(request);
      && |evs| == |request| + 4
      && evs[0] == SendLed(true)
      && evs[1] == Connect(ThingSpeak.Host, ThingSpeak.Port)
      && evs[|evs| - 2] == Stop
      && evs[|evs| - 1] == SendLed(false)
      && evs[2..|evs| - 2] == request
      && Count(evs, Stop) == 1
      && Count(evs, Connect(ThingSpeak.Host, ThingSpeak.Port)) == 1
      && Count(evs, SendLed(true)) == 1
      && Count(evs, SendLed(false)) == 1
  {
    var open, close := [SendLed(true), Connect(ThingSpeak.Host, ThingSpeak.Port)], [Stop, SendLed(false)];
    CountBetween(open, request, close, Stop);
    CountBetween(open, request, close, Connect(ThingSpeak.Host, ThingSpeak.Port));
    CountBetween(open, request, close, SendLed(true));
    CountBetween(open, request, close, SendLed(false));
  }

  /** Past the skip check the connection is scoped: the send LED goes high
      before the one `connect`, and `client.stop()` is called last but one,
      followed by the LED going low, on the connected and the failed path
      alike. A failed connection writes nothing; a successful one writes the
      request between the two. */
  lemma LogConnectionDiscipline(cfg: Config, hr: real, spO2: u8, temp: real, connected: bool)
    requires !SkipLogging(hr, temp)
    ensures var evs := LogEvents(cfg, hr, spO2, temp, connected);
      && |evs| >= 4
      && evs[0] == SendLed(true)
      && evs[1] == Connect(ThingSpeak.Host, ThingSpeak.Port)
      && evs[|evs| - 2] == Stop
      && evs[|evs| - 1] == SendLed(false)
      && (!connected ==> evs == [SendLed(true), Connect(ThingSpeak.Host, ThingSpeak.Port), Stop, SendLed(false)])
  {
    var request := if connected then ThingSpeak.RequestEvents(cfg.apiKey, LogBody(cfg, hr, spO2, temp)) else [];
    assert LogEvents(cfg, hr, spO2, temp, connected) == Session(request);
    ScopedConnection(request);
  }

  /** A successful connection writes the whole request, and nothing else,
      between `connect` and `client.stop()`. */
  lemma LogWritesRequest(cfg: Config, hr: real, spO2: u8, temp: real)
    requires !SkipLogging(hr, temp)
    ensures var evs := LogEvents(cfg, hr, spO2, temp, true);
      && |evs| == 13
      && evs[2..11] == ThingSpeak.RequestEvents(cfg.apiKey, LogBody(cfg, hr, spO2, temp))
      && evs[10] == Print(LogBody(cfg, hr, spO2, temp))
  {
    var request := ThingSpeak.RequestEvents(cfg.apiKey, LogBody(cfg, hr, spO2, temp));
    assert LogEvents(cfg, hr, spO2, temp, true) == Session(request);
    ScopedConnection(request);
  }

  /** Past the skip check, the LED goes on once, the service is connected to
      once, `client.stop()` is called once and the LED goes off once. */
  lemma LogConnectsOnce(cfg: Config, hr: real, spO2: u8, temp: real, connected: bool)
    requires !SkipLogging(hr, temp)
    ensures var evs := LogEvents(cfg, hr, spO2, temp, connected);
      && Count(evs, Stop) == 1
      && Count(evs, Connect(ThingSpeak.Host, ThingSpeak.Port)) == 1
      && Count(evs, SendLed(true)) == 1
      && Count(evs, SendLed(false)) == 1
  {
    var request := if connected then ThingSpeak.RequestEvents(cfg.apiKey, LogBody(cfg, hr, spO2, temp)) else [];
    assert LogEvents(cfg, hr, spO2, temp, connected) == Session(request);
    ScopedConnection(request);
  }

  /** Every upload, skipped or not, leaves no connection open and the send LED
      off, and connects at most once. */
  lemma LogBalanced(cfg: Config, hr: real, spO2: u8, temp: real, connected: bool)
    ensures var evs := LogEvents(cfg, hr, spO2, temp, connected);
      ThingSpeak.Released(evs) && Count(evs, Connect(ThingSpeak.Host, ThingSpeak.Port)) <= 1
  {
    if !SkipLogging(hr, temp) {
      LogConnectsOnce(cfg, hr, spO2, temp, connected);
    }
  }

  /** When connected, the request written is the record of the three fields
      with its Content-Length, and the record decodes to the field values:
      field1 the valid heart rate or 0, field2 the valid SpO2 or 0, field3 the
      positive temperature or 0. */
  lemma LogFieldsDecode(cfg: Config, hr: real, spO2: u8, temp: real)
    requires !SkipLogging(hr, temp)
    requires ThingSpeak.Separator !in cfg.apiKey
    requires forall x :: ThingSpeak.Separator !in cfg.showFloat(x)
    ensures var body := LogBody(cfg, hr, spO2, temp);
      && Print(body) in LogEvents(cfg, hr, spO2, temp, true)
      && DigitsValue(ThingSpeak.RequestEvents(cfg.apiKey, body)[6].text) == |body|
      && ThingSpeak.SplitOn(body, ThingSpeak.Separator)
         == [ cfg.apiKey,
              "field1=" + cfg.showFloat(Num(if HeartRateValid(hr) then hr else 0.0)),
              "field2=" + DecimalInt(if SpO2Valid(spO2) then spO2 as int else 0),
              "field3=" + cfg.showFloat(Num(if temp > 0.0 then temp else 0.0)) + ThingSpeak.Terminator ]
  {
    var body := LogBody(cfg, hr, spO2, temp);
    LogWritesRequest(cfg, hr, spO2, temp);
    ThingSpeak.ContentLengthMatchesBody(cfg.apiKey, body);
    ThingSpeak.RecordDecodes(cfg.apiKey, Field1(cfg, hr), Field2(spO2), Field3(cfg, temp));
  }

  // ----- one loop() iteration -----

  /** The globals after the 1 s block: when more than 1 s has passed since the
      last sample, the driver readings are stored (the temperature clamped)
      and the cadence restarts; otherwise nothing changes. */
  function Sampled(cfg: Config, s: Snapshot, inp: TickInput): (s1: Snapshot)
    ensures s1.lastUpdate == s.lastUpdate
    ensures !Due(inp.pollCheck, s.lastPoxUpdate, PoxReportInterval) ==> s1 == s
    ensures 0.0 <= s.bodyTemperature <= 50.0 ==> 0.0 <= s1.bodyTemperature <= 50.0
  {
    if Due(inp.pollCheck, s.lastPoxUpdate, PoxReportInterval) then
      s.(heartRate := inp.heartRate, spO2 := inp.spO2,
         bodyTemperature := ClampTemperature(inp.rawTemperature, cfg.disconnectedC),
         lastPoxUpdate := inp.pollReset)
    else s
  }

  /** The dashboard writes of the 1 s block. */
  function Published(cfg: Config, s: Snapshot, inp: TickInput): (evs: seq<Event>)
    ensures forall e :: e in evs ==> e.VirtualWrite?
  {
    if Due(inp.pollCheck, s.lastPoxUpdate, PoxReportInterval) then
      var s1 := Sampled(cfg, s, inp);
      BlynkEvents(s1.heartRate, s1.spO2, s1.bodyTemperature)
    else []
  }

  /** The network actions of the 15 s block, taken on the sampled globals. */
  function Logged(cfg: Config, s1: Snapshot, inp: TickInput): (evs: seq<Event>)
    ensures forall e :: e in evs ==> ThingSpeak.IsLogAction(e)
  {
    if Due(inp.logCheck, s1.lastUpdate, UpdateInterval) then
      LogEvents(cfg, s1.heartRate, s1.spO2, s1.bodyTemperature, inp.connected)
    else []
  }

  /** One `loop()`: pump the dashboard and the oximeter; if more than 1 s has
      passed since the last sample, read and publish and restart that cadence;
      then, if more than 15 s has passed since the last upload, upload and
      restart that cadence. */
  function Step(cfg: Config, s: Snapshot, inp: TickInput): Outcome
  {
    var s1 := Sampled(cfg, s, inp);
    var s2 := if Due(inp.logCheck, s1.lastUpdate, UpdateInterval) then s1.(lastUpdate := inp.logReset) else s1;
    Outcome(s2, [BlynkRun, PoxUpdate] + Published(cfg, s, inp) + Logged(cfg, s1, inp))
  }

  /** `Blynk.run()` and `pox.update()` open every iteration, once each,
      whatever either cadence decides. */
  lemma StepPumpsFirst(cfg: Config, s: Snapshot, inp: TickInput)
    ensures var tr := Step(cfg, s, inp).trace;
      && |tr| >= 2 && tr[0] == BlynkRun && tr[1] == PoxUpdate
      && Count(tr, BlynkRun) == 1 && Count(tr, PoxUpdate) == 1
  {
    var published := Published(cfg, s, inp);
    var logged := Logged(cfg, Sampled(cfg, s, inp), inp);
    PumpsOpenTrace(published, logged);
    assert Step(cfg, s, inp).trace == [BlynkRun, PoxUpdate] + published + logged;
  }

  /** Pumping, then dashboard writes, then upload actions: the pumps occur
      once each, at the head. */
  lemma PumpsOpenTrace(published: seq<Event>, logged: seq<Event>)
    requires forall e :: e in published ==> e.VirtualWrite?
    requires forall e :: e in logged ==> ThingSpeak.IsLogAction(e)
    ensures var tr := [BlynkRun, PoxUpdate] + published + logged;
      && tr[0] == BlynkRun && tr[1] == PoxUpdate
      && Count(tr, BlynkRun) == 1 && Count(tr, PoxUpdate) == 1
  {
    assert BlynkRun !in published && PoxUpdate !in published;
    assert BlynkRun !in logged && PoxUpdate !in logged;
    CountOnlyInHead([BlynkRun, PoxUpdate], published, logged, BlynkRun);
    CountOnlyInHead([BlynkRun, PoxUpdate], published, logged, PoxUpdate);
  }

  /** The sampling cadence: it fires exactly when more than 1000 ms (modulo
      2^32) have passed since `lastPoxUpdate`. Firing stores the driver
      readings, with the temperature clamped, publishes them and restarts the
      cadence from the later clock reading; otherwise the readings and
      `lastPoxUpdate` are unchanged and nothing is published. */
  lemma StepSamplingCadence(cfg: Config, s: Snapshot, inp: TickInput)
    ensures var o := Step(cfg, s, inp);
      if Due(inp.pollCheck, s.lastPoxUpdate, PoxReportInterval) then
        && o.after.heartRate == inp.heartRate
        && o.after.spO2 == inp.spO2
        && o.after.bodyTemperature == ClampTemperature(inp.rawTemperature, cfg.disconnectedC)
        && o.after.lastPoxUpdate == inp.pollReset
        && o.trace[2..2 + |BlynkEvents(inp.heartRate, inp.spO2, o.after.bodyTemperature)|]
           == BlynkEvents(inp.heartRate, inp.spO2, o.after.bodyTemperature)
      else
        && o.after.heartRate == s.heartRate
        && o.after.spO2 == s.spO2
        && o.after.bodyTemperature == s.bodyTemperature
        && o.after.lastPoxUpdate == s.lastPoxUpdate
        && forall e :: e in o.trace ==> !e.VirtualWrite?
  {
  }

  /** The logging cadence: it fires exactly when more than 15000 ms (modulo
      2^32) have passed since `lastUpdate`, restarting it; otherwise
      `lastUpdate` is unchanged and the iteration takes no network action. */
  lemma StepLoggingCadence(cfg: Config, s: Snapshot, inp: TickInput)
    ensures var o := Step(cfg, s, inp);
      && (Due(inp.logCheck, s.lastUpdate, UpdateInterval) ==> o.after.lastUpdate == inp.logReset)
      && (!Due(inp.logCheck, s.lastUpdate, UpdateInterval) ==>
            o.after.lastUpdate == s.lastUpdate && forall e :: e in o.trace ==> !ThingSpeak.IsLogAction(e))
  {
  }

  /** When the logging cadence fires and the sampled readings pass the skip
      rule, the iteration connects to the logging service. */
  lemma StepUploadsWhenDue(cfg: Config, s: Snapshot, inp: TickInput)
    requires Due(inp.logCheck, s.lastUpdate, UpdateInterval)
    requires !SkipLogging(Sampled(cfg, s, inp).heartRate, Sampled(cfg, s, inp).bodyTemperature)
    ensures Connect(ThingSpeak.Host, ThingSpeak.Port) in Step(cfg, s, inp).trace
  {
    var s1 := Sampled(cfg, s, inp);
    var logged := Logged(cfg, s1, inp);
    assert Step(cfg, s, inp).trace == [BlynkRun, PoxUpdate] + Published(cfg, s, inp) + Logged(cfg, Sampled(cfg, s, inp), inp);
    LogConnectionDiscipline(cfg, s1.heartRate, s1.spO2, s1.bodyTemperature, inp.connected);
    assert logged[1] == Connect(ThingSpeak.Host, ThingSpeak.Port);
    assert Connect(ThingSpeak.Host, ThingSpeak.Port) in logged;
  }

  lemma WritesBeforeLogActions(head: seq<Event>, published: seq<Event>, logged: seq<Event>)
    requires forall e :: e in head ==> !e.VirtualWrite? && !ThingSpeak.IsLogAction(e)
    requires forall e :: e in published ==> e.VirtualWrite?
    requires forall e :: e in logged ==> ThingSpeak.IsLogAction(e)
    ensures var tr := head + published + logged;
      forall i, j :: 0 <= i < |tr| && 0 <= j < i && ThingSpeak.IsLogAction(tr[j]) ==> !tr[i].VirtualWrite?
  {
    var tr := head + published + logged;
    var n := |head| + |published|;
    forall k | 0 <= k < n
      ensures !ThingSpeak.IsLogAction(tr[k])
    {
      if k < |head| {
        assert tr[k] in head;
      } else {
        assert tr[k] in published;
      }
    }
    forall k | n <= k < |tr|
      ensures !tr[k].VirtualWrite?
    {
      assert tr[k] in logged;
    }
  }

  /** Within an iteration every dashboard publish comes before every logging
      action: the 15 s block runs after the 1 s block. */
  lemma StepSamplingBeforeLogging(cfg: Config, s: Snapshot, inp: TickInput)
    ensures var tr := Step(cfg, s, inp).trace;
      forall i, j :: 0 <= i < |tr| && 0 <= j < i && ThingSpeak.IsLogAction(tr[j]) ==> !tr[i].VirtualWrite?
  {
    assert Step(cfg, s, inp).trace == [BlynkRun, PoxUpdate] + Published(cfg, s, inp) + Logged(cfg, Sampled(cfg, s, inp), inp);
    WritesBeforeLogActions([BlynkRun, PoxUpdate], Published(cfg, s, inp), Logged(cfg, Sampled(cfg, s, inp), inp));
  }

  /** The stored temperature stays within [0, 50]. */
  lemma StepKeepsTemperatureInRange(cfg: Config, s: Snapshot, inp: TickInput)
    requires 0.0 <= s.bodyTemperature <= 50.0
    ensures 0.0 <= Step(cfg, s, inp).after.bodyTemperature <= 50.0
  {
  }

  lemma PublishedReleased(cfg: Config, s: Snapshot, inp: TickInput)
    ensures var head := [BlynkRun, PoxUpdate] + Published(cfg, s, inp);
      ThingSpeak.Released(head) && Count(head, Connect(ThingSpeak.Host, ThingSpeak.Port)) == 0
  {
    ThingSpeak.ReleasedOffline([BlynkRun, PoxUpdate] + Published(cfg, s, inp));
  }

  lemma LoggedReleased(cfg: Config, s1: Snapshot, inp: TickInput)
    ensures var logged := Logged(cfg, s1, inp);
      ThingSpeak.Released(logged) && Count(logged, Connect(ThingSpeak.Host, ThingSpeak.Port)) <= 1
  {
    if Due(inp.logCheck, s1.lastUpdate, UpdateInterval) {
      LogBalanced(cfg, s1.heartRate, s1.spO2, s1.bodyTemperature, inp.connected);
    } else {
      ThingSpeak.ReleasedOffline([]);
    }
  }

  /** Every connection an iteration opens it also closes, the send LED is
      switched off as often as on, and an iteration connects at most once. */
  lemma StepReleasesConnection(cfg: Config, s: Snapshot, inp: TickInput)
    ensures var tr := Step(cfg, s, inp).trace;
      ThingSpeak.Released(tr) && Count(tr, Connect(ThingSpeak.Host, ThingSpeak.Port)) <= 1
  {
    var head := [BlynkRun, PoxUpdate] + Published(cfg, s, inp);
    var logged := Logged(cfg, Sampled(cfg, s, inp), inp);
    assert Step(cfg, s, inp).trace == [BlynkRun, PoxUpdate] + Published(cfg, s, inp) + Logged(cfg, Sampled(cfg, s, inp), inp);
    PublishedReleased(cfg, s, inp);
    LoggedReleased(cfg, Sampled(cfg, s, inp), inp);
    ThingSpeak.ReleasedAppend(head, logged);
    CountAppend(head, logged, Connect(ThingSpeak.Host, ThingSpeak.Port));
  }

  /** An upload is never repeated within 15 s of the previous one: after an
      iteration that uploaded, a next iteration whose clock reads at most
      15000 ms after the restart makes no network action. */
  lemma NoSecondUploadWithinInterval(cfg: Config, s: Snapshot, first: TickInput, second: TickInput)
    requires Due(first.logCheck, s.lastUpdate, UpdateInterval)
    requires Elapsed(second.logCheck, first.logReset) as int <= UpdateInterval
    ensures var o := Step(cfg, Step(cfg, s, first).after, second);
      o.after.lastUpdate == first.logReset && forall e :: e in o.trace ==> !ThingSpeak.IsLogAction(e)
  {
    StepLoggingCadence(cfg, s, first);
    StepLoggingCadence(cfg, Step(cfg, s, first).after, second);
  }

  // ----- many iterations -----

  /** `loop()` called once per input, in order. */
  function Run(cfg: Config, s: Snapshot, ins: seq<TickInput>): Outcome
    decreases |ins|
  {
    if ins == [] then Outcome(s, [])
    else
      var o := Step(cfg, s, ins[0]);
      var rest := Run(cfg, o.after, ins[1..]);
      Outcome(rest.after, o.trace + rest.trace)
  }

  /** Over any number of iterations the oximeter and the dashboard are pumped
      exactly once per iteration, however seldom the cadenced tasks run. */
  lemma {:induction false} RunPumpsEveryIteration(cfg: Config, s: Snapshot, ins: seq<TickInput>)
    ensures Count(Run(cfg, s, ins).trace, BlynkRun) == |ins|
    ensures Count(Run(cfg, s, ins).trace, PoxUpdate) == |ins|
    decreases |ins|
  {
    if ins != [] {
      StepPumpsFirst(cfg, s, ins[0]);
      RunPumpsEveryIteration(cfg, Step(cfg, s, ins[0]).after, ins[1..]);
    }
  }

  /** Over any number of iterations no connection is left open: `client.stop()`
      is called as many times as `client.connect`, and the send LED is switched
      off as often as on. */
  lemma {:induction false} RunReleasesEveryConnection(cfg: Config, s: Snapshot, ins: seq<TickInput>)
    ensures ThingSpeak.Released(Run(cfg, s, ins).trace)
    decreases |ins|
  {
    if ins == [] {
      ThingSpeak.ReleasedOffline([]);
    } else {
      var o := Step(cfg, s, ins[0]);
      StepReleasesConnection(cfg, s, ins[0]);
      RunReleasesEveryConnection(cfg, o.after, ins[1..]);
      ThingSpeak.ReleasedAppend(o.trace, Run(cfg, o.after, ins[1..]).trace);
    }
  }

  /** The stored temperature stays within [0, 50] across any run that starts
      from the sketch's initial state or any other in-range state. */
  lemma {:induction false} RunKeepsTemperatureInRange(cfg: Config, s: Snapshot, ins: seq<TickInput>)
    requires 0.0 <= s.bodyTemperature <= 50.0
    ensures 0.0 <= Run(cfg, s, ins).after.bodyTemperature <= 50.0
    decreases |ins|
  {
    if ins != [] {
      StepKeepsTemperatureInRange(cfg, s, ins[0]);
      RunKeepsTemperatureInRange(cfg, Step(cfg, s, ins[0]).after, ins[1..]);
    }
  }

  // ----- the sketch's globals and functions -----

  class Monitor {
    const cfg: Config
    var heartRate: real
    var spO2: u8
    var bodyTemperature: real
    var lastUpdate: u32
    var lastPoxUpdate: u32

    function Snap(): Snapshot
      reads this
    {
      Snapshot(heartRate, spO2, bodyTemperature, lastUpdate, lastPoxUpdate)
    }

    /** The stored temperature is always a clamped reading. */
    ghost predicate Valid()
      reads this
    {
      0.0 <= bodyTemperature <= 50.0
    }

    /** The globals' initial values, then the end of `setup()`, which starts
        both cadences from `millis()`. */
    constructor (cfg: Config, setupUpdate: u32, setupPox: u32)
      ensures Valid() && this.cfg == cfg
      ensures Snap() == Snapshot(0.0, 0, 0.0, setupUpdate, setupPox)
    {
      this.cfg := cfg;
      heartRate, spO2, bodyTemperature := 0.0, 0, 0.0;
      lastUpdate := setupUpdate;
      lastPoxUpdate := setupPox;
    }

    /** `readSensors`: store the oximeter's readings as they are and the
        thermometer's reading clamped to 0 when rejected. */
    method ReadSensors(hr: real, spO2: u8, rawTemperature: real)
      modifies this`heartRate, this`spO2, this`bodyTemperature
      ensures Valid()
      ensures heartRate == hr && this.spO2 == spO2
      ensures bodyTemperature == ClampTemperature(rawTemperature, cfg.disconnectedC)
    {
      heartRate := hr;
      this.spO2 := spO2;
      bodyTemperature := rawTemperature;
      if bodyTemperature == cfg.disconnectedC || bodyTemperature < 0.0 || bodyTemperature > 50.0 {
        bodyTemperature := 0.0;
      }
    }

    /** `sendToBlynk`: publish each valid stored reading. */
    method SendToBlynk() returns (evs: seq<Event>)
      ensures evs == BlynkEvents(heartRate, spO2, bodyTemperature)
    {
      evs := [];
      if heartRate > 0.0 && heartRate < 200.0 {
        evs := evs + [VirtualWrite(V1, FloatValue(Num(heartRate)))];
      }
      if spO2 > 0 && spO2 <= 100 {
        evs := evs + [VirtualWrite(V2, IntValue(spO2 as int))];
      }
      if bodyTemperature > 0.0 && bodyTemperature < 50.0 {
        evs := evs + [VirtualWrite(V3, FloatValue(Num(bodyTemperature)))];
      }
    }

    /** `sendToThingSpeak`: unless skipped, build the record by appending to
        it and send it on a connection that is closed on every path. */
    method SendToThingSpeak(connected: bool) returns (evs: seq<Event>)
      ensures evs == LogEvents(cfg, heartRate, spO2, bodyTemperature, connected)
    {
      if (heartRate <= 0.0 || heartRate >= 200.0) && bodyTemperature <= 0.0 {
        return [];
      }
      evs := [SendLed(true), Connect(ThingSpeak.Host, ThingSpeak.Port)];
      if connected {
        var postStr := cfg.apiKey;
        postStr := postStr + "&field1=";
        postStr := postStr + cfg.showFloat(Num(if heartRate > 0.0 && heartRate < 200.0 then heartRate else 0.0));
        postStr := postStr + "&field2=";
        postStr := postStr + DecimalInt(if spO2 > 0 && spO2 <= 100 then spO2 as int else 0);
        postStr := postStr + "&field3=";
        postStr := postStr + cfg.showFloat(Num(if bodyTemperature > 0.0 then bodyTemperature else 0.0));
        postStr := postStr + "\r\n\r\n";
        assert postStr == LogBody(cfg, heartRate, spO2, bodyTemperature);

        var request := [Print(ThingSpeak.RequestLine)];
        request := request + [Print(ThingSpeak.HostLine)];
        request := request + [Print(ThingSpeak.ConnectionLine)];
        request := request + [Print(ThingSpeak.ApiKeyHeaderName + cfg.apiKey + "\n")];
        request := request + [Print(ThingSpeak.ContentTypeLine)];
        request := request + [Print(ThingSpeak.ContentLengthName)];
        request := request + [Print(DecimalNat(|postStr|))];
        request := request + [Print(ThingSpeak.HeaderEnd)];
        request := request + [Print(postStr)];
        assert request == ThingSpeak.RequestEvents(cfg.apiKey, postStr);
        evs := evs + request;
      }
      evs := evs + [Stop, SendLed(false)];
    }

    /** `loop()`. */
    method Tick(inp: TickInput) returns (trace: seq<Event>)
      requires Valid()
      modifies this
      ensures Valid()
      ensures Snap() == Step(cfg, old(Snap()), inp).after
      ensures trace == Step(cfg, old(Snap()), inp).trace
    {
      trace := [BlynkRun, PoxUpdate];
      if Elapsed(inp.pollCheck, lastPoxUpdate) as int > PoxReportInterval {
        ReadSensors(inp.heartRate, inp.spO2, inp.rawTemperature);
        var published := SendToBlynk();
        trace := trace + published;
        lastPoxUpdate := inp.pollReset;
      }
      if Elapsed(inp.logCheck, lastUpdate) as int > UpdateInterval {
        var logged := SendToThingSpeak(inp.connected);
        trace := trace + logged;
        lastUpdate := inp.logReset;
      }
    }
  }
}
