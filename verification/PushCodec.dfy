/** The field codec of the push stream (src/stream/redis_push_stream.cc:17-24, 53-68, 262-282):
    numbers travel as decimal text and are read back with strtoll. */
module PushCodec {
  import opened Decimal
  import opened Wrappers

  const INT64_MAX: int := 0x7fff_ffff_ffff_ffff
  const INT64_MIN: int := -0x8000_0000_0000_0000

  datatype Event = Event(eventId: string, messageId: string, fromUser: int, toUser: int, conn: int, payload: string)

  type Fields = map<string, string>

  // ---------------------------------------------------------------- decimal text

  /** std::to_string. */
  function ToString(n: int): string {
    if n < 0 then "-" + Digits(-n) else Digits(n)
  }

  predicate IsSpace(c: char) {
    c == ' ' || '\t' <= c <= '\r'
  }

  /** The bytes c_str() shows: everything before the first NUL. */
  function CStr(s: string): string {
    if s == "" || s[0] == '\0' then "" else [s[0]] + CStr(s[1..])
  }

  function SkipSpaces(s: string): string {
    if s != "" && IsSpace(s[0]) then SkipSpaces(s[1..]) else s
  }

  function Clamp(n: int): int {
    if n > INT64_MAX then INT64_MAX else if n < INT64_MIN then INT64_MIN else n
  }

  /** strtoll in base 10 that must consume the whole C string; errno is not looked at. */
  function ParseInteger(value: string): Option<int> {
    var s := SkipSpaces(CStr(value));
    var signed := s != "" && (s[0] == '-' || s[0] == '+');
    var body := if signed then s[1..] else s;
    if body == "" || !AllDigits(body) then None
    else
      var n: int := Value(body);
      Some(Clamp(if signed && s[0] == '-' then -n else n))
  }

  lemma {:induction false} CStrOfText(s: string)
    requires forall i :: 0 <= i < |s| ==> s[i] != '\0'
    ensures CStr(s) == s
  {
    if s != "" {
      CStrOfText(s[1..]);
    }
  }

  lemma ParseUnsigned(s: string)
    requires s != "" && AllDigits(s)
    ensures ParseInteger(s) == Some(Clamp(Value(s)))
  {
    hide Value;
    CStrOfText(s);
    assert IsDigit(s[0]);
  }

  lemma ParseNegative(s: string)
    requires s != "" && AllDigits(s)
    ensures ParseInteger("-" + s) == Some(Clamp(0 - Value(s)))
  {
    hide Value;
    CStrOfText("-" + s);
    assert ("-" + s)[1..] == s;
  }

  /** Reading back what to_string wrote gives the number, saturated to 64 bits. */
  lemma IntegerRoundTrip(n: int)
    ensures ParseInteger(ToString(n)) == Some(Clamp(n))
  {
    hide ParseInteger;
    if n < 0 {
      DigitsRead(-n);
      ParseNegative(Digits(-n));
    } else {
      DigitsRead(n);
      ParseUnsigned(Digits(n));
    }
  }

  // ---------------------------------------------------------------- events

  function Encode(e: Event): Fields {
    map["event_id" := e.eventId, "message_id" := e.messageId, "from_user_id" := ToString(e.fromUser),
        "to_user_id" := ToString(e.toUser), "connection_id" := ToString(e.conn), "payload" := e.payload]
  }

  function Positive(text: string): Option<int> {
    var n := ParseInteger(text);
    if n.Some? && n.value > 0 then n else None
  }

  function Decode(f: Fields): Option<Event> {
    if !({"event_id", "message_id", "from_user_id", "to_user_id", "connection_id", "payload"} <= f.Keys) then None
    else
      var from, to, conn := Positive(f["from_user_id"]), Positive(f["to_user_id"]), Positive(f["connection_id"]);
      if f["event_id"] == "" || f["message_id"] == "" || f["payload"] == "" || from.None? || to.None? || conn.None?
      then None
      else Some(Event(f["event_id"], f["message_id"], from.value, to.value, conn.value, f["payload"]))
  }

  /** What Publish checks before XADD: the event survives its own codec. */
  predicate Publishable(e: Event) {
    Decode(Encode(e)).Some?
  }

  predicate Complete(e: Event) {
    e.eventId != "" && e.messageId != "" && e.payload != "" && e.fromUser > 0 && e.toUser > 0 && e.conn > 0
  }

  /** An event is published exactly when its texts are not empty and its numbers are positive, and
      the consumer then sees the same event, except that a number above 2^63-1 arrives as 2^63-1. */
  lemma EventRoundTrip(e: Event)
    ensures Publishable(e) <==> Complete(e)
    ensures Publishable(e) ==>
              Decode(Encode(e))
              == Some(e.(fromUser := Clamp(e.fromUser), toUser := Clamp(e.toUser), conn := Clamp(e.conn)))
  {
    hide ParseInteger, ToString;
    IntegerRoundTrip(e.fromUser);
    IntegerRoundTrip(e.toUser);
    IntegerRoundTrip(e.conn);
  }

  /** Connection ids are unsigned 64-bit: a published event reaches its own connection exactly
      when the id fits in 63 bits. */
  lemma TargetSurvivesExactly(e: Event)
    requires Complete(e) && e.fromUser <= INT64_MAX && e.toUser <= INT64_MAX && e.conn < 0x1_0000_0000_0000_0000
    ensures Decode(Encode(e)) == Some(e) <==> e.conn <= INT64_MAX
  {
    EventRoundTrip(e);
  }
}
