/** The logging uplink's wire format, shared by both sketches: a form-encoded
    record `apiKey&field1=…&field2=…&field3=…\r\n\r\n` sent as the body of an
    HTTP POST to the logging service, with a Content-Length header computed from
    that body. */
module ThingSpeak {
  import opened Board

  const Host: string := "api.thingspeak.com"
  const Port: nat := 80
  const Terminator: string := "\r\n\r\n"
  const Separator: char := '&'

  // The fixed lines of the request header, each ended by a bare `\n`.
  const ApiKeyHeaderName: string := "X-THINGSPEAKAPIKEY: "
  const RequestLine: string := "POST /update HTTP/1.1\n"
  const HostLine: string := "Host: api.thingspeak.com\n"
  const ConnectionLine: string := "Connection: close\n"
  const ContentTypeLine: string := "Content-Type: application/x-www-form-urlencoded\n"
  const ContentLengthName: string := "Content-Length: "
  const HeaderEnd: string := "\n\n"

  /** The record body: the API key, then the three fields, then a blank line. */
  function Record(apiKey: string, field1: string, field2: string, field3: string): string
  {
    apiKey + "&field1=" + field1 + "&field2=" + field2 + "&field3=" + field3 + Terminator
  }

  /** The record starts with the key, ends with the blank line, and is 28
      characters longer than the key and the three field texts together. */
  lemma RecordLayout(apiKey: string, field1: string, field2: string, field3: string)
    ensures var body := Record(apiKey, field1, field2, field3);
      && |body| == |apiKey| + |field1| + |field2| + |field3| + 28
      && body[..|apiKey|] == apiKey
      && body[|body| - 4..] == Terminator
  {
  }

  /** The nine `client.print` calls of one request: the header lines (ended by
      a bare `\n`), the body's length printed in decimal after
      "Content-Length: ", an empty line, then the body itself. */
  function RequestEvents(apiKey: string, body: string): (evs: seq<Event>)
    ensures |evs| == 9 && evs[8] == Print(body)
    ensures forall e :: e in evs ==> e.Print?
  {
    [ Print(RequestLine),
      Print(HostLine),
      Print(ConnectionLine),
      Print(ApiKeyHeaderName + apiKey + "\n"),
      Print(ContentTypeLine),
      Print(ContentLengthName),
      Print(DecimalNat(|body|)),
      Print(HeaderEnd),
      Print(body) ]
  }

  /** A receiver that reads the digits after "Content-Length: " recovers the
      exact number of characters in the body that follows, the trailing blank
      line included. */
  lemma ContentLengthMatchesBody(apiKey: string, body: string)
    ensures var evs := RequestEvents(apiKey, body);
      && evs[5] == Print(ContentLengthName)
      && AllDigits(evs[6].text)
      && DigitsValue(evs[6].text) == |evs[8].text|
  {
    DecimalNatRoundTrip(|body|);
  }

  /** The actions an upload may take: the send LED, the connection, the
      request prints and `client.stop()`. */
  predicate IsLogAction(e: Event)
  {
    e.SendLed? || e.Connect? || e.Print? || e == Stop
  }

  /** A trace that leaves nothing open: `client.stop()` is called as often as
      the service is connected to, and the send LED is switched off as often
      as on. */
  predicate Released(trace: seq<Event>)
  {
    && Count(trace, Stop) == Count(trace, Connect(Host, Port))
    && Count(trace, SendLed(true)) == Count(trace, SendLed(false))
  }

  lemma ReleasedAppend(a: seq<Event>, b: seq<Event>)
    requires Released(a) && Released(b)
    ensures Released(a + b)
  {
    CountAppend(a, b, Stop);
    CountAppend(a, b, Connect(Host, Port));
    CountAppend(a, b, SendLed(true));
    CountAppend(a, b, SendLed(false));
  }

  /** A trace with no network action and no send-LED write is released. */
  lemma ReleasedOffline(a: seq<Event>)
    requires forall e :: e in a ==> !(e.SendLed? || e.Connect? || e == Stop)
    ensures Released(a) && Count(a, Connect(Host, Port)) == 0
  {
    CountAbsent(a, Stop);
    CountAbsent(a, Connect(Host, Port));
    CountAbsent(a, SendLed(true));
    CountAbsent(a, SendLed(false));
  }

  /** Splitting text at every occurrence of `sep`, as a form decoder does. */
  function SplitOn(s: string, sep: char): (parts: seq<string>)
    ensures |parts| >= 1
    ensures forall i :: 0 <= i < |parts| ==> sep !in parts[i]
  {
    if s == [] then [[]]
    else
      var rest := SplitOn(s[1..], sep);
      if s[0] == sep then [[]] + rest else [[s[0]] + rest[0]] + rest[1..]
  }

  lemma {:induction false} SplitOnWithout(a: string, sep: char)
    requires sep !in a
    ensures SplitOn(a, sep) == [a]
  {
    if a != [] {
      SplitOnWithout(a[1..], sep);
      assert [a[0]] + a[1..] == a;
    }
  }

  lemma {:induction false} SplitOnFirst(a: string, sep: char, b: string)
    requires sep !in a
    ensures SplitOn(a + [sep] + b, sep) == [a] + SplitOn(b, sep)
  {
    if a == [] {
      assert (a + [sep] + b)[1..] == b;
    } else {
      SplitOnFirst(a[1..], sep, b);
      assert (a + [sep] + b)[1..] == a[1..] + [sep] + b;
      assert [a[0]] + a[1..] == a;
    }
  }

  /** Splitting three separated parts that hold no separator themselves. */
  lemma {:induction false} SplitOnFour(p0: string, p1: string, p2: string, p3: string, sep: char)
    requires sep !in p0 && sep !in p1 && sep !in p2 && sep !in p3
    ensures SplitOn(p0 + [sep] + (p1 + [sep] + (p2 + [sep] + p3)), sep) == [p0, p1, p2, p3]
  {
    SplitOnWithout(p3, sep);
    SplitOnFirst(p2, sep, p3);
    SplitOnFirst(p1, sep, p2 + [sep] + p3);
    SplitOnFirst(p0, sep, p1 + [sep] + (p2 + [sep] + p3));
  }

  /** The record is decodable: when neither the key nor any field text holds a
      separator, splitting the body at '&' gives back the key and the three
      `name=value` pairs, in order. */
  lemma RecordDecodes(apiKey: string, field1: string, field2: string, field3: string)
    requires Separator !in apiKey && Separator !in field1
    requires Separator !in field2 && Separator !in field3
    ensures SplitOn(Record(apiKey, field1, field2, field3), Separator)
         == [apiKey, "field1=" + field1, "field2=" + field2, "field3=" + field3 + Terminator]
  {
    var p1, p2, p3 := "field1=" + field1, "field2=" + field2, "field3=" + field3 + Terminator;
    assert Separator !in p1 && Separator !in p2 && Separator !in p3;
    assert "&field1=" == [Separator] + "field1=";
    assert "&field2=" == [Separator] + "field2=";
    assert "&field3=" == [Separator] + "field3=";
    assert Record(apiKey, field1, field2, field3) == apiKey + [Separator] + (p1 + [Separator] + (p2 + [Separator] + p3));
    SplitOnFour(apiKey, p1, p2, p3, Separator);
  }
}
