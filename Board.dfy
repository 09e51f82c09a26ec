/** The ESP8266 board as the two sketches see it: the 32-bit millisecond clock,
    the integer widths of the sensor drivers, single-precision readings that may
    be NaN, the Arduino integer helpers (`map`, decimal printing) and the trace of
    observable actions one loop iteration produces. */
module Board {

  /** `unsigned long` on the ESP8266: 32 bits. */
  const ClockModulus: int := 0x1_0000_0000

  newtype u32 = x: int | 0 <= x < 0x1_0000_0000

  /** `uint8_t`, the type the pulse-oximeter driver reports SpO2 in. */
  newtype u8 = x: int | 0 <= x < 0x100

  /** What `analogRead(A0)` returns on the ESP8266: a count from 0 to 1024
      (the SDK's ADC read reports full scale as 1024, one past ten bits). */
  newtype AdcCount = x: int | 0 <= x <= 1024

  /** `millis() - last`, computed on `unsigned long`: the difference modulo 2^32. */
  function Elapsed(now: u32, last: u32): (d: u32)
    ensures last <= now ==> d as int == now as int - last as int
    ensures now < last ==> d as int == ClockModulus - (last as int - now as int)
  {
    ((now as int - last as int) % ClockModulus) as u32
  }

  /** The cadence test of both sketches: `millis() - last > interval`, strictly. */
  predicate Due(now: u32, last: u32, interval: nat)
  {
    Elapsed(now, last) as int > interval
  }

  /** Wrap safety: whatever `last` is, a clock that has advanced by `d` < 2^32
      milliseconds since `last` (and so may have wrapped once) shows an elapsed
      time of exactly `d`. */
  lemma ElapsedIsTrueDuration(last: u32, d: nat)
    requires d < ClockModulus
    ensures Elapsed(((last as int + d) % ClockModulus) as u32, last) as int == d
  {
    var now := ((last as int + d) % ClockModulus) as u32;
    if last as int + d < ClockModulus {
      assert now as int == last as int + d;
    } else {
      assert now as int == last as int + d - ClockModulus;
    }
  }

  /** Hence the cadence decision depends only on the true duration, never on
      where in the 49.7-day cycle of the counter the two readings fall. */
  lemma DueIffLongerThan(last: u32, d: nat, interval: nat)
    requires d < ClockModulus
    ensures Due(((last as int + d) % ClockModulus) as u32, last, interval) <==> d > interval
  {
    ElapsedIsTrueDuration(last, d);
  }

  /** A `float` reading: a number, or the NaN a failed driver read produces. */
  datatype Float = Num(value: real) | NaN

  function Abs(x: int): nat
  {
    if x < 0 then -x else x
  }

  /** Division of a natural number by a positive one gives a natural number:
      stated apart so that `CDiv`'s proof does not reason about division. */
  lemma QuotientOfNaturals(n: int, d: int)
    requires n >= 0 && d > 0
    ensures n / d >= 0
  {
  }

  /** C and C++ integer division, which truncates toward zero (Dafny's `/` is
      Euclidean and differs for a negative dividend). */
  function CDiv(a: int, b: int): (q: int)
    requires b != 0
    ensures Abs(q) == Abs(a) / Abs(b)
    ensures (a < 0) == (b < 0) ==> q >= 0
    ensures (a < 0) != (b < 0) ==> q <= 0
  {
    var m: int := Abs(a) / Abs(b);
    QuotientOfNaturals(Abs(a), Abs(b));
    if (a < 0) == (b < 0) then m else -m
  }

  /** Arduino's `map(x, inMin, inMax, outMin, outMax)` on `long`, in its usual
      definition: (x - inMin) * (outMax - outMin) / (inMax - inMin) + outMin,
      with C division. The library is not part of this model; this formula is
      the assumption the model makes about it. */
  function ArduinoMap(x: int, inMin: int, inMax: int, outMin: int, outMax: int): int
    requires inMax != inMin
  {
    CDiv((x - inMin) * (outMax - outMin), inMax - inMin) + outMin
  }

  function DigitChar(d: nat): (c: char)
    requires d < 10
    ensures '0' <= c <= '9'
  {
    ('0' as int + d) as char
  }

  predicate IsDigit(c: char)
  {
    '0' <= c <= '9'
  }

  predicate AllDigits(s: string)
  {
    forall i :: 0 <= i < |s| ==> IsDigit(s[i])
  }

  /** Decimal text of an unsigned number, as `Print::print(unsigned)` and
      `String(int)` write it: at least one digit and no leading zero. */
  function DecimalNat(n: nat): (s: string)
    ensures |s| >= 1 && AllDigits(s)
    ensures |s| > 1 ==> s[0] != '0'
    decreases n
  {
    if n < 10 then [DigitChar(n)] else DecimalNat(n / 10) + [DigitChar(n % 10)]
  }

  /** `String(int)`: a minus sign before the digits of a negative number. */
  function DecimalInt(i: int): (s: string)
    ensures |s| >= 1 && '&' !in s
  {
    if i < 0 then "-" + DecimalNat(-i) else DecimalNat(i)
  }

  /** The value a reader of decimal digits recovers. */
  function DigitsValue(s: string): nat
    requires AllDigits(s)
  {
    if s == [] then 0
    else DigitsValue(s[..|s| - 1]) * 10 + (s[|s| - 1] as int - '0' as int)
  }

  /** The reading of decimal text back into a signed number. */
  function ParseDecimalInt(s: string): int
    requires |s| >= 1
    requires AllDigits(s) || (s[0] == '-' && AllDigits(s[1..]))
  {
    if s[0] == '-' then 0 - DigitsValue(s[1..]) else DigitsValue(s)
  }

  lemma {:induction false} DecimalNatRoundTrip(n: nat)
    ensures DigitsValue(DecimalNat(n)) == n
    decreases n
  {
    if n >= 10 {
      DecimalNatRoundTrip(n / 10);
      var s := DecimalNat(n);
      assert s[..|s| - 1] == DecimalNat(n / 10);
    }
  }

  lemma DecimalIntRoundTrip(i: int)
    ensures var s := DecimalInt(i);
      (AllDigits(s) || (s[0] == '-' && AllDigits(s[1..]))) && ParseDecimalInt(s) == i
  {
    if i < 0 {
      DecimalNatRoundTrip(-i);
      assert DecimalInt(i)[1..] == DecimalNat(-i);
    } else {
      DecimalNatRoundTrip(i);
    }
  }

  /** Blynk virtual pins written by the sketches. */
  datatype VirtualPin = V1 | V2 | V3

  /** The value given to `Blynk.virtualWrite`: an integer or a float. */
  datatype Value = IntValue(i: int) | FloatValue(f: Float)

  /** One observable action of a loop iteration. */
  datatype Event =
    | BlynkRun                                   // Blynk.run()
    | PoxUpdate                                  // pox.update()
    | VirtualWrite(pin: VirtualPin, value: Value) // Blynk.virtualWrite(pin, value)
    | HeartbeatLed(high: bool)                   // digitalWrite(LED_HEARTBEAT, …)
    | SendLed(high: bool)                        // digitalWrite(LED_SEND, …)
    | Connect(host: string, port: nat)           // client.connect(host, port)
    | Print(text: string)                        // client.print(text)
    | Stop                                       // client.stop()

  /** How many times `e` occurs in a trace. */
  function Count(trace: seq<Event>, e: Event): nat
  {
    multiset(trace)[e]
  }

  lemma CountAppend(a: seq<Event>, b: seq<Event>, e: Event)
    ensures Count(a + b, e) == Count(a, e) + Count(b, e)
  {
    assert multiset(a + b) == multiset(a) + multiset(b);
  }

  lemma CountAbsent(a: seq<Event>, e: Event)
    requires e !in a
    ensures Count(a, e) == 0
  {
  }

  lemma CountBetween(open: seq<Event>, middle: seq<Event>, close: seq<Event>, e: Event)
    requires e !in middle
    ensures Count(open + middle + close, e) == Count(open, e) + Count(close, e)
  {
    CountAppend(open + middle, close, e);
    CountAppend(open, middle, e);
    CountAbsent(middle, e);
  }

  /** An action that occurs in neither of the later parts of a trace is
      counted in its first part alone. */
  lemma CountOnlyInHead(head: seq<Event>, a: seq<Event>, b: seq<Event>, e: Event)
    requires e !in a && e !in b
    ensures Count(head + a + b, e) == Count(head, e)
  {
    CountAppend(head + a, b, e);
    CountAppend(head, a, e);
    CountAbsent(a, e);
    CountAbsent(b, e);
  }
}
