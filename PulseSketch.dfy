/** The analog pulse sketch (code.cpp): a KY-039 pulse sensor on the ADC and a
    DHT11 thermometer/hygrometer, published to the dashboard on every
    iteration without any validity check, and uploaded to the logging service
    every fifteen seconds.

    One call of `loop()` is `PulseMonitor.Tick`; `Step` gives its effect on the
    sketch's globals and the actions it takes, and `Run` chains `Step` over
    many iterations. The ADC count, the DHT11 readings, the clock and the
    outcome of `client.connect` are inputs of a tick. */
module PulseSketch {
  import opened Board
  import ThingSpeak

  /** `updateInterval`: the logging cadence, in ms. */
  const UpdateInterval: nat := 15000

  /** The ADC count above which the heartbeat LED is lit. */
  const LedThreshold: int := 512

  /** The logging API key and `String(float)`, the text the Arduino library
      makes of a float, NaN included (left uninterpreted). */
  datatype Config = Config(apiKey: string, showFloat: Float -> string)

  /** The sketch's globals. */
  datatype Snapshot = Snapshot(
    heartbeatValue: int,
    heartbeatBPM: int,
    temperature: Float,
    humidity: Float,
    lastUpdate: u32)

  /** Everything from outside that one `loop()` call sees, in the order it is
      read: the ADC count, the DHT11's humidity and temperature (NaN when the
      read fails), `millis()` for the logging test, whether `client.connect`
      succeeds, and the `millis()` that restarts the logging cadence. */
  datatype TickInput = TickInput(
    analog: AdcCount,
    humidity: Float,
    temperature: Float,
    logCheck: u32,
    connected: bool,
    logReset: u32)

  datatype Outcome = Outcome(after: Snapshot, trace: seq<Event>)

  // ----- heart rate from the ADC -----

  /** `map(heartbeatValue, 0, 1024, 60, 100)`. */
  function HeartbeatBpm(v: int): int
  {
    ArduinoMap(v, 0, 1024, 60, 100)
  }

  /** For a non-negative count the map is v * 40 / 1024 + 60, rounded down. */
  lemma HeartbeatBpmFormula(v: int)
    requires v >= 0
    ensures HeartbeatBpm(v) == v * 40 / 1024 + 60
  {
    assert v * 40 >= 0;
  }

  /** Over the map's input range [0, 1024] the rate lies in [60, 100]. */
  lemma HeartbeatBpmInRange(v: int)
    requires 0 <= v <= 1024
    ensures 60 <= HeartbeatBpm(v) <= 100
  {
    HeartbeatBpmFormula(v);
    assert v * 40 <= 1024 * 40;
  }

  /** The rate never decreases as the count grows. */
  lemma HeartbeatBpmMonotone(v: int, w: int)
    requires 0 <= v <= w
    ensures HeartbeatBpm(v) <= HeartbeatBpm(w)
  {
    HeartbeatBpmFormula(v);
    HeartbeatBpmFormula(w);
    assert v * 40 <= w * 40;
  }

  /** Every ADC count gives a rate in [60, 100], and the rate reaches 100 only
      at full scale: every count below 1024 gives at most 99. */
  lemma AdcRateHundredOnlyAtFullScale(v: AdcCount)
    ensures 60 <= HeartbeatBpm(v as int) <= 100
    ensures HeartbeatBpm(v as int) == 100 <==> v == 1024
  {
    HeartbeatBpmInRange(v as int);
    if v < 1024 {
      HeartbeatBpmFormula(v as int);
      assert v as int * 40 <= 1023 * 40;
    } else {
      HeartbeatBpmFormula(v as int);
    }
  }

  /** `readHeartbeat`'s LED rule: lit strictly above the threshold. */
  predicate HeartbeatLedOn(v: int)
  {
    v > LedThreshold
  }

  /** `readTemperatureHumidity`'s check: both readings are numbers. */
  predicate DhtReadOk(humidity: Float, temperature: Float)
  {
    !(humidity.NaN? || temperature.NaN?)
  }

  // ----- logging upload -----

  /** The record: the rate as an integer, the two DHT11 readings as floats,
      whatever they are. */
  function LogBody(cfg: Config, bpm: int, temperature: Float, humidity: Float): string
  {
    ThingSpeak.Record(cfg.apiKey, DecimalInt(bpm), cfg.showFloat(temperature), cfg.showFloat(humidity))
  }

  /** The actions of `sendToThingSpeak`: always one connection attempt and
      one `client.stop()`, last; only when connected, the send LED on, the
      request, and the send LED off, in between. */
  function LogEvents(cfg: Config, bpm: int, temperature: Float, humidity: Float, connected: bool): (evs: seq<Event>)
    ensures forall e :: e in evs ==> ThingSpeak.IsLogAction(e)
  {
    if connected then Session(ThingSpeak.RequestEvents(cfg.apiKey, LogBody(cfg, bpm, temperature, humidity)))
    else [Connect(ThingSpeak.Host, ThingSpeak.Port), Stop]
  }

  /** A connection that succeeded: the send LED lit around what is written. */
  function Session(request: seq<Event>): (evs: seq<Event>)
  {
    [Connect(ThingSpeak.Host, ThingSpeak.Port), SendLed(true)] + request + [SendLed(false), Stop]
  }

  /** The shape of a connected upload, whatever request is written. */
  lemma LitConnection(request: seq<Event>)
    requires forall e :: e in request ==> e.Print?
    ensures var evs := Session(request);
      && |evs| == |request| + 4
      && evs[0] == Connect(ThingSpeak.Host, ThingSpeak.Port)
      && evs[1] == SendLed(true)
      && evs[|evs| - 2] == SendLed(false)
      && evs[|evs| - 1] == Stop
      && evs[2..|evs| - 2] == request
      && Count(evs, Stop) == 1
      && Count(evs, Connect(ThingSpeak.Host, ThingSpeak.Port)) == 1
      && Count(evs, SendLed(true)) == 1
      && Count(evs, SendLed(false)) == 1
  {
    var open, close := [Connect(ThingSpeak.Host, ThingSpeak.Port), SendLed(true)], [SendLed(false), Stop];
    CountBetween(open, request, close, Stop);
    CountBetween(open, request, close, Connect(ThingSpeak.Host, ThingSpeak.Port));
    CountBetween(open, request, close, SendLed(true));
    CountBetween(open, request, close, SendLed(false));
  }

  /** There is no skip rule: every upload makes its connection attempt first
      and calls `client.stop()` last, on the connected and the failed path
      alike. The send LED is toggled only on the connected path, on before
      the request and off after it; a failed connection writes nothing. */
  lemma LogConnectionDiscipline(cfg: Config, bpm: int, temperature: Float, humidity: Float, connected: bool)
    ensures var evs := LogEvents(cfg, bpm, temperature, humidity, connected);
      && |evs| >= 2
      && evs[0] == Connect(ThingSpeak.Host, ThingSpeak.Port)
      && evs[|evs| - 1] == Stop
      && (!connected ==> evs == [Connect(ThingSpeak.Host, ThingSpeak.Port), Stop])
      && (connected ==> evs[1] == SendLed(true) && evs[|evs| - 2] == SendLed(false))
  {
    if connected {
      var request := ThingSpeak.RequestEvents(cfg.apiKey, LogBody(cfg, bpm, temperature, humidity));
      assert LogEvents(cfg, bpm, temperature, humidity, connected) == Session(request);
      LitConnection(request);
    } else {
      assert LogEvents(cfg, bpm, temperature, humidity, connected) == [Connect(ThingSpeak.Host, ThingSpeak.Port), Stop];
    }
  }

  /** A successful connection writes the whole request, and nothing else,
      between the send LED going on and off. */
  lemma LogWritesRequest(cfg: Config, bpm: int, temperature: Float, humidity: Float)
    ensures var evs := LogEvents(cfg, bpm, temperature, humidity, true);
      && |evs| == 13
      && evs[2..11] == ThingSpeak.RequestEvents(cfg.apiKey, LogBody(cfg, bpm, temperature, humidity))
      && evs[10] == Print(LogBody(cfg, bpm, temperature, humidity))
  {
    var request := ThingSpeak.RequestEvents(cfg.apiKey, LogBody(cfg, bpm, temperature, humidity));
    assert LogEvents(cfg, bpm, temperature, humidity, true) == Session(request);
    LitConnection(request);
  }

  /** Every upload connects exactly once and calls `client.stop()` exactly
      once; the send LED goes on and off once each when connected, and is
      not touched otherwise. */
  lemma LogConnectsOnce(cfg: Config, bpm: int, temperature: Float, humidity: Float, connected: bool)
    ensures var evs := LogEvents(cfg, bpm, temperature, humidity, connected);
      && Count(evs, Connect(ThingSpeak.Host, ThingSpeak.Port)) == 1
      && Count(evs, Stop) == 1
      && Count(evs, SendLed(true)) == Count(evs, SendLed(false)) == (if connected then 1 else 0)
  {
    if connected {
      var request := ThingSpeak.RequestEvents(cfg.apiKey, LogBody(cfg, bpm, temperature, humidity));
      assert LogEvents(cfg, bpm, temperature, humidity, connected) == Session(request);
      LitConnection(request);
    }
  }

  /** The request carries the record's length as its Content-Length, and the
      record decodes to the rate and the two stored DHT11 readings, NaN or
      not. */
  lemma LogFieldsDecode(cfg: Config, bpm: int, temperature: Float, humidity: Float)
    requires ThingSpeak.Separator !in cfg.apiKey
    requires forall x :: ThingSpeak.Separator !in cfg.showFloat(x)
    ensures var body := LogBody(cfg, bpm, temperature, humidity);
      && Print(body) in LogEvents(cfg, bpm, temperature, humidity, true)
      && DigitsValue(ThingSpeak.RequestEvents(cfg.apiKey, body)[6].text) == |body|
      && ThingSpeak.SplitOn(body, ThingSpeak.Separator)
         == [ cfg.apiKey,
              "field1=" + DecimalInt(bpm),
              "field2=" + cfg.showFloat(temperature),
              "field3=" + cfg.showFloat(humidity) + ThingSpeak.Terminator ]
  {
    var body := LogBody(cfg, bpm, temperature, humidity);
    LogWritesRequest(cfg, bpm, temperature, humidity);
    ThingSpeak.ContentLengthMatchesBody(cfg.apiKey, body);
    ThingSpeak.RecordDecodes(cfg.apiKey, DecimalInt(bpm), cfg.showFloat(temperature), cfg.showFloat(humidity));
  }

  // ----- one loop() iteration -----

  /** The globals after both reads: the count, its rate, and the DHT11
      readings stored as read, even when the read failed. */
  function Sampled(s: Snapshot, inp: TickInput): (s1: Snapshot)
    ensures s1.lastUpdate == s.lastUpdate
  {
    s.(heartbeatValue := inp.analog as int,
       heartbeatBPM := HeartbeatBpm(inp.analog as int),
       humidity := inp.humidity,
       temperature := inp.temperature)
  }

  /** The three dashboard writes, made on every iteration. */
  function Published(s1: Snapshot): (evs: seq<Event>)
    ensures |evs| == 3 && forall e :: e in evs ==> e.VirtualWrite?
  {
    [ VirtualWrite(V1, IntValue(s1.heartbeatBPM)),
      VirtualWrite(V2, FloatValue(s1.temperature)),
      VirtualWrite(V3, FloatValue(s1.humidity)) ]
  }

  /** The network actions of the 15 s block. */
  function Logged(cfg: Config, s1: Snapshot, inp: TickInput): (evs: seq<Event>)
    ensures forall e :: e in evs ==> ThingSpeak.IsLogAction(e)
  {
    if Due(inp.logCheck, s1.lastUpdate, UpdateInterval) then
      LogEvents(cfg, s1.heartbeatBPM, s1.temperature, s1.humidity, inp.connected)
    else []
  }

  /** One `loop()`: pump the dashboard, read the pulse sensor (driving the
      heartbeat LED) and the DHT11, publish all three values, and upload if
      more than 15 s has passed since the last upload. */
  function Step(cfg: Config, s: Snapshot, inp: TickInput): Outcome
  {
    var s1 := Sampled(s, inp);
    var s2 := if Due(inp.logCheck, s1.lastUpdate, UpdateInterval) then s1.(lastUpdate := inp.logReset) else s1;
    Outcome(s2, [BlynkRun, HeartbeatLed(HeartbeatLedOn(inp.analog as int))] + Published(s1) + Logged(cfg, s1, inp))
  }

  /** Every iteration pumps the dashboard once, sets the heartbeat LED from
      the count, and publishes the rate, the temperature and the humidity
      with no validity gating: a NaN reading is published as it is. The rate
      published lies in [60, 100]. */
  lemma StepPublishesEveryIteration(cfg: Config, s: Snapshot, inp: TickInput)
    ensures var tr := Step(cfg, s, inp).trace;
      && |tr| >= 5
      && tr[0] == BlynkRun
      && tr[1] == HeartbeatLed(inp.analog as int > LedThreshold)
      && tr[2] == VirtualWrite(V1, IntValue(HeartbeatBpm(inp.analog as int)))
      && tr[3] == VirtualWrite(V2, FloatValue(inp.temperature))
      && tr[4] == VirtualWrite(V3, FloatValue(inp.humidity))
      && 60 <= HeartbeatBpm(inp.analog as int) <= 100
      && Count(tr, BlynkRun) == 1
  {
    var s1 := Sampled(s, inp);
    assert Step(cfg, s, inp).trace == [BlynkRun, HeartbeatLed(HeartbeatLedOn(inp.analog as int))] + Published(Sampled(s, inp)) + Logged(cfg, Sampled(s, inp), inp);
    AdcRateHundredOnlyAtFullScale(inp.analog);
    assert BlynkRun !in Published(s1) && BlynkRun !in Logged(cfg, s1, inp);
    CountOnlyInHead([BlynkRun, HeartbeatLed(HeartbeatLedOn(inp.analog as int))], Published(s1), Logged(cfg, s1, inp), BlynkRun);
  }

  /** The DHT11 readings are stored before they are checked, so a failed read
      leaves NaN in the globals rather than the previous values or zero; the
      count and its rate are stored too. */
  lemma StepStoresReadingsUnchecked(cfg: Config, s: Snapshot, inp: TickInput)
    ensures var after := Step(cfg, s, inp).after;
      && after.temperature == inp.temperature
      && after.humidity == inp.humidity
      && after.heartbeatValue == inp.analog as int
      && after.heartbeatBPM == HeartbeatBpm(inp.analog as int)
      && (!DhtReadOk(inp.humidity, inp.temperature) ==> after.temperature.NaN? || after.humidity.NaN?)
  {
  }

  /** The logging cadence: it fires exactly when more than 15000 ms (modulo
      2^32) have passed since `lastUpdate`, restarting it; otherwise
      `lastUpdate` is unchanged and the iteration makes no connection. */
  lemma StepLoggingCadence(cfg: Config, s: Snapshot, inp: TickInput)
    ensures var o := Step(cfg, s, inp);
      && (Due(inp.logCheck, s.lastUpdate, UpdateInterval) ==>
            o.after.lastUpdate == inp.logReset && Connect(ThingSpeak.Host, ThingSpeak.Port) in o.trace)
      && (!Due(inp.logCheck, s.lastUpdate, UpdateInterval) ==>
            o.after.lastUpdate == s.lastUpdate
            && Connect(ThingSpeak.Host, ThingSpeak.Port) !in o.trace
            && Stop !in o.trace)
  {
    var s1 := Sampled(s, inp);
    assert Step(cfg, s, inp).trace == [BlynkRun, HeartbeatLed(HeartbeatLedOn(inp.analog as int))] + Published(Sampled(s, inp)) + Logged(cfg, Sampled(s, inp), inp);
    if Due(inp.logCheck, s.lastUpdate, UpdateInterval) {
      LogConnectionDiscipline(cfg, s1.heartbeatBPM, s1.temperature, s1.humidity, inp.connected);
      assert Logged(cfg, s1, inp)[0] == Connect(ThingSpeak.Host, ThingSpeak.Port);
    }
  }

  lemma PublishedReleased(cfg: Config, s1: Snapshot, led: bool)
    ensures var head := [BlynkRun, HeartbeatLed(led)] + Published(s1);
      ThingSpeak.Released(head) && Count(head, Connect(ThingSpeak.Host, ThingSpeak.Port)) == 0
  {
    ThingSpeak.ReleasedOffline([BlynkRun, HeartbeatLed(led)] + Published(s1));
  }

  lemma LoggedReleased(cfg: Config, s1: Snapshot, inp: TickInput)
    ensures var logged := Logged(cfg, s1, inp);
      ThingSpeak.Released(logged) && Count(logged, Connect(ThingSpeak.Host, ThingSpeak.Port)) <= 1
  {
    if Due(inp.logCheck, s1.lastUpdate, UpdateInterval) {
      LogConnectsOnce(cfg, s1.heartbeatBPM, s1.temperature, s1.humidity, inp.connected);
    } else {
      ThingSpeak.ReleasedOffline([]);
    }
  }

  /** Every connection an iteration opens it also closes, the send LED is
      switched off as often as on, and an iteration connects at most once. */
  lemma StepReleasesConnection(cfg: Config, s: Snapshot, inp: TickInput)
    ensures var tr := Step(cfg, s, inp).trace;
      ThingSpeak.Released(tr) && Count(tr, Connect(ThingSpeak.Host, ThingSpeak.Port)) <= 1
  {
    var s1 := Sampled(s, inp);
    var head := [BlynkRun, HeartbeatLed(HeartbeatLedOn(inp.analog as int))] + Published(s1);
    var logged := Logged(cfg, s1, inp);
    assert Step(cfg, s, inp).trace == [BlynkRun, HeartbeatLed(HeartbeatLedOn(inp.analog as int))] + Published(Sampled(s, inp)) + Logged(cfg, Sampled(s, inp), inp);
    PublishedReleased(cfg, s1, HeartbeatLedOn(inp.analog as int));
    LoggedReleased(cfg, s1, inp);
    ThingSpeak.ReleasedAppend(head, logged);
    CountAppend(head, logged, Connect(ThingSpeak.Host, ThingSpeak.Port));
  }

  // ----- many iterations -----

  /** `loop()` called once per input, in order. */
  function Run(cfg: Config, s: Snapshot, ins: seq<TickInput>): Outcome
    decreases |ins|
  {
    if ins == [] then Outcome(s, [])
    else
      var o := Step(cfg, s, ins[0]);
      var rest := Run(cfg, o.after, ins[1..]);
      Outcome(rest.after, o.trace + rest.trace)
  }

  /** Over any number of iterations the dashboard is pumped exactly once per
      iteration. */
  lemma {:induction false} RunPumpsEveryIteration(cfg: Config, s: Snapshot, ins: seq<TickInput>)
    ensures Count(Run(cfg, s, ins).trace, BlynkRun) == |ins|
    decreases |ins|
  {
    if ins != [] {
      var o := Step(cfg, s, ins[0]);
      StepPublishesEveryIteration(cfg, s, ins[0]);
      RunPumpsEveryIteration(cfg, o.after, ins[1..]);
      CountAppend(o.trace, Run(cfg, o.after, ins[1..]).trace, BlynkRun);
    }
  }

  /** Over any number of iterations no connection is left open: `client.stop()`
      is called as many times as `client.connect`, and the send LED is switched
      off as often as on. */
  lemma {:induction false} RunReleasesEveryConnection(cfg: Config, s: Snapshot, ins: seq<TickInput>)
    ensures ThingSpeak.Released(Run(cfg, s, ins).trace)
    decreases |ins|
  {
    if ins == [] {
      ThingSpeak.ReleasedOffline([]);
    } else {
      var o := Step(cfg, s, ins[0]);
      StepReleasesConnection(cfg, s, ins[0]);
      RunReleasesEveryConnection(cfg, o.after, ins[1..]);
      ThingSpeak.ReleasedAppend(o.trace, Run(cfg, o.after, ins[1..]).trace);
    }
  }

  /** While every clock reading stays at or below 15000 ms, a run that starts
      with `lastUpdate` at 0 never connects and leaves `lastUpdate` at 0. */
  lemma {:induction false} QuietUntilFifteenSeconds(cfg: Config, s: Snapshot, ins: seq<TickInput>)
    requires s.lastUpdate == 0
    requires forall k :: 0 <= k < |ins| ==> ins[k].logCheck as int <= 15000
    ensures Run(cfg, s, ins).after.lastUpdate == 0
    ensures Connect(ThingSpeak.Host, ThingSpeak.Port) !in Run(cfg, s, ins).trace
    decreases |ins|
  {
    if ins != [] {
      var o := Step(cfg, s, ins[0]);
      StepLoggingCadence(cfg, s, ins[0]);
      assert forall k :: 0 <= k < |ins[1..]| ==> ins[1..][k] == ins[k + 1];
      QuietUntilFifteenSeconds(cfg, o.after, ins[1..]);
    }
  }

  /** `lastUpdate` starts at 0 and `setup()` leaves it there, so no iteration
      uploads while the clock reads at most 15000 ms, and the first iteration
      whose clock reads more than that connects. */
  lemma FirstUploadAfterFifteenSeconds(cfg: Config, s: Snapshot, ins: seq<TickInput>, next: TickInput)
    requires s.lastUpdate == 0
    requires forall k :: 0 <= k < |ins| ==> ins[k].logCheck as int <= 15000
    ensures Connect(ThingSpeak.Host, ThingSpeak.Port) !in Run(cfg, s, ins).trace
    ensures Connect(ThingSpeak.Host, ThingSpeak.Port) in Step(cfg, Run(cfg, s, ins).after, next).trace
        <==> next.logCheck as int > 15000
  {
    QuietUntilFifteenSeconds(cfg, s, ins);
    StepLoggingCadence(cfg, Run(cfg, s, ins).after, next);
  }

  // ----- the sketch's globals and functions -----

  class PulseMonitor {
    const cfg: Config
    var heartbeatValue: int
    var heartbeatBPM: int
    var temperature: Float
    var humidity: Float
    var lastUpdate: u32

    function Snap(): Snapshot
      reads this
    {
      Snapshot(heartbeatValue, heartbeatBPM, temperature, humidity, lastUpdate)
    }

    /** The globals' initial values; `setup()` does not touch `lastUpdate`. */
    constructor (cfg: Config)
      ensures this.cfg == cfg
      ensures Snap() == Snapshot(0, 0, Num(0.0), Num(0.0), 0)
    {
      this.cfg := cfg;
      heartbeatValue, heartbeatBPM := 0, 0;
      temperature, humidity := Num(0.0), Num(0.0);
      lastUpdate := 0;
    }

    /** `readHeartbeat`: store the count and its rate, and drive the LED. */
    method ReadHeartbeat(analog: AdcCount) returns (led: Event)
      modifies this`heartbeatValue, this`heartbeatBPM
      ensures heartbeatValue == analog as int
      ensures heartbeatBPM == HeartbeatBpm(analog as int) && 60 <= heartbeatBPM <= 100
      ensures led == HeartbeatLed(analog as int > LedThreshold)
    {
      heartbeatValue := analog as int;
      heartbeatBPM := ArduinoMap(heartbeatValue, 0, 1024, 60, 100);
      AdcRateHundredOnlyAtFullScale(analog);
      if heartbeatValue > 512 {
        led := HeartbeatLed(true);
      } else {
        led := HeartbeatLed(false);
      }
    }

    /** `readTemperatureHumidity`: store both readings, then check them; the
        check decides only whether they are reported on the serial line. */
    method ReadTemperatureHumidity(h: Float, t: Float) returns (ok: bool)
      modifies this`humidity, this`temperature
      ensures humidity == h && temperature == t
      ensures ok == DhtReadOk(h, t)
    {
      humidity := h;
      temperature := t;
      if humidity.NaN? || temperature.NaN? {
        return false;
      }
      ok := true;
    }

    /** `sendToThingSpeak`: one connection attempt, the record built by
        appending and sent when connected, and `client.stop()` either way. */
    method SendToThingSpeak(connected: bool) returns (evs: seq<Event>)
      ensures evs == LogEvents(cfg, heartbeatBPM, temperature, humidity, connected)
    {
      evs := [Connect(ThingSpeak.Host, ThingSpeak.Port)];
      if connected {
        evs := evs + [SendLed(true)];

        var postStr := cfg.apiKey;
        postStr := postStr + "&field1=";
        postStr := postStr + DecimalInt(heartbeatBPM);
        postStr := postStr + "&field2=";
        postStr := postStr + cfg.showFloat(temperature);
        postStr := postStr + "&field3=";
        postStr := postStr + cfg.showFloat(humidity);
        postStr := postStr + "\r\n\r\n";
        assert postStr == LogBody(cfg, heartbeatBPM, temperature, humidity);

        var request := [Print(ThingSpeak.RequestLine)];
        request := request + [Print(ThingSpeak.HostLine)];
        request := request + [Print(ThingSpeak.ConnectionLine)];
        request := request + [Print(ThingSpeak.ApiKeyHeaderName + cfg.apiKey + "\n")];
        request := request + [Print(ThingSpeak.ContentTypeLine)];
        request := request + [Print(ThingSpeak.ContentLengthName)];
        request := request + [Print(DecimalNat(|postStr|))];
        request := request + [Print(ThingSpeak.HeaderEnd)];
        request := request + [Print(postStr)];
        assert request == ThingSpeak.RequestEvents(cfg.apiKey, postStr);
        evs := evs + request;

        evs := evs + [SendLed(false)];
      }
      evs := evs + [Stop];
    }

    /** `loop()`. */
    method Tick(inp: TickInput) returns (trace: seq<Event>)
      modifies this
      ensures Snap() == Step(cfg, old(Snap()), inp).after
      ensures trace == Step(cfg, old(Snap()), inp).trace
    {
      var led := ReadHeartbeat(inp.analog);
      var _ := ReadTemperatureHumidity(inp.humidity, inp.temperature);
      var writes := [ VirtualWrite(V1, IntValue(heartbeatBPM)),
                      VirtualWrite(V2, FloatValue(temperature)),
                      VirtualWrite(V3, FloatValue(humidity)) ];
      var logged := [];
      if Elapsed(inp.logCheck, lastUpdate) as int > UpdateInterval {
        logged := SendToThingSpeak(inp.connected);
        lastUpdate := inp.logReset;
      }
      trace := [BlynkRun, led] + writes + logged;
    }
  }
}
