/** Replay of an invocation's journal as server-sent events, unlimited or in bounded pages. */
module EventReplay {
  import opened Text
  import opened Resources
  import opened Journal

  const MAXIMUM_PAGE_BYTES := 0x10_0000

  /** How events are written: JSON, and the name of the event type. */
  datatype Codec = Codec(encode: Event -> Option<string>, kindName: EventKind -> string)

  /** Neither contains a line break. */
  ghost predicate OneLine(c: Codec) {
    && (forall e: Event :: c.encode(e).Some? ==> '\n' !in c.encode(e).value)
    && (forall kind: EventKind :: '\n' !in c.kindName(kind))
  }

  // ---- Decimal numbers ------------------------------------------------------------------------------

  function Digit(n: nat): char
    requires n < 10
  {
    (n as char) + '0'
  }

  function Decimal(n: nat): string {
    if n < 10 then [Digit(n)] else Decimal(n / 10) + [Digit(n % 10)]
  }

  function ParseDecimal(s: string): nat {
    if s == [] then 0
    else if '0' <= s[|s| - 1] <= '9' then 10 * ParseDecimal(s[..|s| - 1]) + (s[|s| - 1] - '0') as nat
    else 0
  }

  lemma {:induction false} DecimalRoundTrip(n: nat)
    ensures ParseDecimal(Decimal(n)) == n && '\n' !in Decimal(n)
  {
    if n < 10 {
      assert Decimal(n)[..0] == [];
    } else {
      DecimalRoundTrip(n / 10);
      assert Decimal(n)[..|Decimal(n)| - 1] == Decimal(n / 10);
    }
  }

  // ---- Frames ------------------------------------------------------------------------------------------

  const ID_FIELD := "id: "
  const EVENT_FIELD := "event: "
  const DATA_FIELD := "data: "

  /** One record as a reader of the stream sees it. */
  datatype Record = Record(id: string, kind: string, data: string)

  /** Sequence numbers are unsigned. */
  function SequenceOf(e: Event): nat { if e.sequence < 0 then 0 else e.sequence }

  function Encoded(c: Codec, e: Event): Record
    requires c.encode(e).Some?
  {
    Record(Decimal(SequenceOf(e)), c.kindName(e.kind), c.encode(e).value)
  }

  /** The text of one record: three fields and a blank line. */
  function Lines(r: Record): string {
    (ID_FIELD + r.id) + ['\n'] + ((EVENT_FIELD + r.kind) + ['\n'] + ((DATA_FIELD + r.data) + ['\n'] + ['\n']))
  }

  predicate AllEncode(c: Codec, events: seq<Event>) { forall e | e in events :: c.encode(e).Some? }

  function Frame(c: Codec, e: Event): string
    requires c.encode(e).Some?
  {
    Lines(Encoded(c, e))
  }

  function Frames(c: Codec, events: seq<Event>): string
    requires AllEncode(c, events)
  {
    if events == [] then [] else Frames(c, events[..|events| - 1]) + Frame(c, events[|events| - 1])
  }

  function RecordsOf(c: Codec, events: seq<Event>): seq<Record>
    requires AllEncode(c, events)
  {
    if events == [] then [] else [Encoded(c, events[0])] + RecordsOf(c, events[1..])
  }

  lemma {:induction false} FramesConcat(c: Codec, a: seq<Event>, b: seq<Event>)
    requires AllEncode(c, a) && AllEncode(c, b)
    ensures Frames(c, a + b) == Frames(c, a) + Frames(c, b)
  {
    if b == [] {
      assert a + b == a;
    } else {
      var n := |b| - 1;
      AllEncodeSlice(c, b, n);
      FramesConcat(c, a, b[..n]);
      AllEncodeConcat(c, a, b[..n]);
      assert a + b == (a + b[..n]) + [b[n]] && b == b[..n] + [b[n]];
      FramesSnoc(c, a + b[..n], b[n]);
      FramesSnoc(c, b[..n], b[n]);
      Associates(Frames(c, a), Frames(c, b[..n]), Frame(c, b[n]));
    }
  }

  lemma AllEncodeSlice(c: Codec, events: seq<Event>, n: nat)
    requires AllEncode(c, events) && n < |events|
    ensures AllEncode(c, events[..n]) && c.encode(events[n]).Some?
  {
    assert events[n] in events;
  }

  lemma AllEncodeConcat(c: Codec, a: seq<Event>, b: seq<Event>)
    requires AllEncode(c, a) && AllEncode(c, b)
    ensures AllEncode(c, a + b)
  {
  }

  lemma FramesSnoc(c: Codec, events: seq<Event>, e: Event)
    requires AllEncode(c, events) && c.encode(e).Some?
    ensures Frames(c, events + [e]) == Frames(c, events) + Frame(c, e)
  {
    assert (events + [e])[..|events|] == events;
  }

  lemma FramesNext(c: Codec, events: seq<Event>, n: nat)
    requires n < |events| && AllEncode(c, events[..n]) && c.encode(events[n]).Some?
    ensures AllEncode(c, events[..n + 1]) && Frames(c, events[..n + 1]) == Frames(c, events[..n]) + Frame(c, events[n])
  {
    assert events[..n + 1] == events[..n] + [events[n]];
    FramesSnoc(c, events[..n], events[n]);
  }

  lemma Associates(x: string, y: string, z: string)
    ensures (x + y) + z == x + (y + z)
  {
  }

  // ---- Reading the stream back ------------------------------------------------------------------------------

  /** What is left of a field after its colon: one leading space is not part of the value. */
  function Unspaced(s: string): string { if s != [] && s[0] == ' ' then s[1..] else s }

  /** A line sets the field it names. */
  function Interpret(r: Record, line: string): Record {
    var name, value := Before(line, ':'), Unspaced(After(line, ':'));
    if name == "id" then r.(id := value)
    else if name == "event" then r.(kind := value)
    else if name == "data" then r.(data := value)
    else r
  }

  const BLANK := Record("", "", "")

  /** Read a stream line by line; a blank line completes a record. */
  function ParseFrom(body: string, r: Record): seq<Record>
    decreases |body|
  {
    if body == [] then []
    else
      var line, rest := Before(body, '\n'), After(body, '\n');
      if line == [] then [r] + ParseFrom(rest, BLANK) else ParseFrom(rest, Interpret(r, line))
  }

  function Parse(body: string): seq<Record> { ParseFrom(body, BLANK) }

  lemma ParseLine(line: string, rest: string, r: Record)
    requires '\n' !in line && line != []
    ensures ParseFrom(line + ['\n'] + rest, r) == ParseFrom(rest, Interpret(r, line))
  {
    SplitAtFirst(line, '\n', rest);
  }

  lemma ParseBlank(rest: string, r: Record)
    ensures ParseFrom(['\n'] + rest, r) == [r] + ParseFrom(rest, BLANK)
  {
    SplitAtFirst([], '\n', rest);
    assert [] + ['\n'] + rest == ['\n'] + rest;
  }

  /** The three fields as the writer puts them set the three fields of the record. */
  lemma FieldsInterpreted(r: Record)
    ensures Interpret(Interpret(Interpret(BLANK, ID_FIELD + r.id), EVENT_FIELD + r.kind), DATA_FIELD + r.data) == r
  {
    FieldSplits("id", r.id);
    FieldSplits("event", r.kind);
    FieldSplits("data", r.data);
    assert ID_FIELD + r.id == "id" + [':'] + ([' '] + r.id);
    assert EVENT_FIELD + r.kind == "event" + [':'] + ([' '] + r.kind);
    assert DATA_FIELD + r.data == "data" + [':'] + ([' '] + r.data);
  }

  lemma FieldSplits(name: string, value: string)
    requires ':' !in name
    ensures var line := name + [':'] + ([' '] + value); Before(line, ':') == name && Unspaced(After(line, ':')) == value
  {
    SplitAtFirst(name, ':', [' '] + value);
  }

  lemma ParseOne(r: Record, rest: string)
    requires '\n' !in r.id && '\n' !in r.kind && '\n' !in r.data
    ensures Parse(Lines(r) + rest) == [r] + Parse(rest)
  {
    var fourth := ['\n'] + rest;
    var third := (DATA_FIELD + r.data) + ['\n'] + fourth;
    var second := (EVENT_FIELD + r.kind) + ['\n'] + third;
    var body := (ID_FIELD + r.id) + ['\n'] + second;
    assert Lines(r) + rest == body;
    var one := Interpret(BLANK, ID_FIELD + r.id);
    var two := Interpret(one, EVENT_FIELD + r.kind);
    ParseLine(ID_FIELD + r.id, second, BLANK);
    ParseLine(EVENT_FIELD + r.kind, third, one);
    ParseLine(DATA_FIELD + r.data, fourth, two);
    FieldsInterpreted(r);
    ParseBlank(rest, r);
  }

  lemma FramesFirst(c: Codec, events: seq<Event>)
    requires AllEncode(c, events) && events != []
    ensures AllEncode(c, events[1..]) && Frames(c, events) == Frame(c, events[0]) + Frames(c, events[1..])
  {
    assert events[1..] == [] || forall e | e in events[1..] :: e in events;
    FramesConcat(c, [events[0]], events[1..]);
    assert [events[0]] + events[1..] == events;
    FramesSingle(c, events[0]);
  }

  lemma FramesSingle(c: Codec, e: Event)
    requires c.encode(e).Some?
    ensures Frames(c, [e]) == Frame(c, e)
  {
    assert [e][..0] == [];
  }

  /** A reader of the frames recovers exactly the records, in order. */
  lemma {:induction false} FramesRoundTrip(c: Codec, events: seq<Event>)
    requires OneLine(c) && AllEncode(c, events)
    ensures Parse(Frames(c, events)) == RecordsOf(c, events)
  {
    if events != [] {
      FramesFirst(c, events);
      FramesRoundTrip(c, events[1..]);
      DecimalRoundTrip(SequenceOf(events[0]));
      ParseOne(Encoded(c, events[0]), Frames(c, events[1..]));
    }
  }

  // ---- What a replay answers ----------------------------------------------------------------------------------

  datatype Answer =
    | Page(body: string, hasMore: bool)
    | Stream(sent: string)
    | Unavailable
    | RecordTooLarge
    | NotFound

  /** The events after the cursor. */
  function Beyond(journal: seq<Event>, cursor: nat): seq<Event> {
    if journal == [] then []
    else
      var n := |journal| - 1;
      Beyond(journal[..n], cursor) + (if SequenceOf(journal[n]) <= cursor then [] else [journal[n]])
  }

  /** The first n of the events fit a page, and no more of them do. */
  ghost predicate Fills(c: Codec, rest: seq<Event>, limit: nat, n: nat) {
    && n <= |rest| && n <= limit
    && AllEncode(c, rest[..n]) && |Frames(c, rest[..n])| <= MAXIMUM_PAGE_BYTES
    && (n < |rest| && n < limit && c.encode(rest[n]).Some? ==>
          |Frames(c, rest[..n])| + |Frame(c, rest[n])| > MAXIMUM_PAGE_BYTES)
  }

  /** A page of exactly the first n events; more remain exactly when it says so, and then it is not empty. */
  ghost predicate Carries(c: Codec, rest: seq<Event>, limit: nat, n: nat, body: string, hasMore: bool) {
    && Fills(c, rest, limit, n)
    && body == Frames(c, rest[..n])
    && (hasMore <==> n < |rest|)
    && (hasMore ==> n > 0)
    && (n < |rest| && n < limit ==> c.encode(rest[n]).Some?)
  }

  ghost predicate Replayed(c: Codec, rest: seq<Event>, limit: nat, answer: Answer) {
    match answer
    case Page(body, hasMore) => exists n: nat :: Carries(c, rest, limit, n, body, hasMore)
    case RecordTooLarge => rest != [] && c.encode(rest[0]).Some? && |Frame(c, rest[0])| > MAXIMUM_PAGE_BYTES
    case Unavailable => exists n: nat :: Fills(c, rest, limit, n) && n < |rest| && n < limit && c.encode(rest[n]).None?
    case _ => false
  }

  /** The bounded page. */
  method WriteBounded(c: Codec, events: seq<Event>, cursor: nat, limit: nat) returns (answer: Answer)
    requires limit >= 1
    ensures Replayed(c, Beyond(events, cursor), limit, answer)
  {
    var page := "";
    var count := 0;
    var hasMore := false;
    ghost var rest := Beyond(events, cursor);
    for i := 0 to |events|
      invariant count <= limit && !hasMore
      invariant Beyond(events[..i], cursor) <= rest && count == |Beyond(events[..i], cursor)|
      invariant AllEncode(c, rest[..count]) && page == Frames(c, rest[..count])
      invariant |page| <= MAXIMUM_PAGE_BYTES
    {
      var event := events[i];
      BeyondStep(events, cursor, i);
      if SequenceOf(event) <= cursor {
        continue;
      }
      assert rest[count] == event;
      if count == limit {
        hasMore := true;
        break;
      }
      var encoded := c.encode(event);
      if encoded.None? {
        assert Fills(c, rest, limit, count);
        return Unavailable;
      }
      var frame := Lines(Record(Decimal(SequenceOf(event)), c.kindName(event.kind), encoded.value));
      if |frame| > MAXIMUM_PAGE_BYTES - |page| {
        assert Fills(c, rest, limit, count);
        if count == 0 {
          return RecordTooLarge;
        }
        hasMore := true;
        break;
      }
      FramesNext(c, rest, count);
      page := page + frame;
      count := count + 1;
    }
    assert events[..|events|] == events;
    assert Carries(c, rest, limit, count, page, hasMore);
    answer := Page(page, hasMore);
  }

  lemma {:induction false} BeyondConcat(a: seq<Event>, b: seq<Event>, cursor: nat)
    ensures Beyond(a + b, cursor) == Beyond(a, cursor) + Beyond(b, cursor)
  {
    if b == [] {
      assert a + b == a;
    } else {
      var n := |b| - 1;
      BeyondConcat(a, b[..n], cursor);
      assert (a + b)[..|a + b| - 1] == a + b[..n];
    }
  }

  lemma BeyondStep(events: seq<Event>, cursor: nat, i: nat)
    requires i < |events|
    ensures Beyond(events[..i + 1], cursor) == Beyond(events[..i], cursor) + (if SequenceOf(events[i]) <= cursor then [] else [events[i]])
    ensures Beyond(events[..i + 1], cursor) <= Beyond(events, cursor)
  {
    assert events[..i + 1][..i] == events[..i];
    assert events == events[..i + 1] + events[i + 1..];
    BeyondConcat(events[..i + 1], events[i + 1..], cursor);
  }

  /** What an unlimited replay sends: every frame up to the first event that does not encode. */
  ghost predicate Streamed(c: Codec, rest: seq<Event>, sent: string) {
    exists n: nat :: n <= |rest| && AllEncode(c, rest[..n]) && sent == Frames(c, rest[..n]) && (n < |rest| ==> c.encode(rest[n]).None?)
  }

  method WriteUnlimited(c: Codec, events: seq<Event>, cursor: nat) returns (answer: Answer)
    ensures answer.Stream? && Streamed(c, Beyond(events, cursor), answer.sent)
  {
    var sent := "";
    ghost var rest := Beyond(events, cursor);
    ghost var n := 0;
    for i := 0 to |events|
      invariant Beyond(events[..i], cursor) <= rest && n == |Beyond(events[..i], cursor)|
      invariant AllEncode(c, rest[..n]) && sent == Frames(c, rest[..n])
    {
      BeyondStep(events, cursor, i);
      if SequenceOf(events[i]) <= cursor {
        continue;
      }
      assert rest[n] == events[i];
      var encoded := c.encode(events[i]);
      if encoded.None? {
        return Stream(sent);
      }
      FramesNext(c, rest, n);
      sent := sent + Lines(Record(Decimal(SequenceOf(events[i])), c.kindName(events[i].kind), encoded.value));
      n := n + 1;
    }
    assert events[..|events|] == events;
    return Stream(sent);
  }

  /** The endpoint: an unlimited replay copies the journal, a bounded one selects at most `limit + 1` events first.
      Selecting never changes the page. */
  method StreamInvocationEvents(c: Codec, stored: Option<seq<Event>>, cursor: nat, limit: nat) returns (answer: Answer)
    ensures stored.None? <==> answer.NotFound?
    ensures stored.Some? && limit == 0 ==> answer.Stream? && Streamed(c, Beyond(stored.value, cursor), answer.sent)
    ensures stored.Some? && limit > 0 ==> Replayed(c, Beyond(stored.value, cursor), limit, answer)
  {
    if stored.None? {
      return NotFound;
    }
    if limit == 0 {
      answer := WriteUnlimited(c, stored.value, cursor);
      return;
    }
    var selected := Select(stored.value, cursor, limit + 1);
    BeyondAll(selected, cursor);
    answer := WriteBounded(c, selected, cursor, limit);
    SelectionSuffices(c, Beyond(stored.value, cursor), selected, limit, answer);
  }

  method Select(journal: seq<Event>, cursor: nat, most: nat) returns (selected: seq<Event>)
    requires most >= 1
    ensures selected <= Beyond(journal, cursor) && |selected| <= most
    ensures |selected| < most ==> selected == Beyond(journal, cursor)
    ensures forall i | 0 <= i < |selected| :: SequenceOf(selected[i]) > cursor
  {
    selected := [];
    for i := 0 to |journal|
      invariant selected == Beyond(journal[..i], cursor) && |selected| < most
      invariant forall j | 0 <= j < |selected| :: SequenceOf(selected[j]) > cursor
    {
      BeyondStep(journal, cursor, i);
      if SequenceOf(journal[i]) <= cursor {
        continue;
      }
      selected := selected + [journal[i]];
      if |selected| == most {
        return;
      }
    }
    assert journal[..|journal|] == journal;
  }

  lemma {:induction false} BeyondAll(events: seq<Event>, cursor: nat)
    requires forall i | 0 <= i < |events| :: SequenceOf(events[i]) > cursor
    ensures Beyond(events, cursor) == events
  {
    if events != [] {
      var n := |events| - 1;
      BeyondAll(events[..n], cursor);
      assert events == events[..n] + [events[n]];
    }
  }

  /** A page never depends on more than `limit + 1` of the events. */
  lemma SelectionSuffices(c: Codec, rest: seq<Event>, selected: seq<Event>, limit: nat, answer: Answer)
    requires limit >= 1 && selected <= rest && (|selected| == limit + 1 || selected == rest)
    requires Replayed(c, selected, limit, answer)
    ensures Replayed(c, rest, limit, answer)
  {
    match answer
    case Page(body, hasMore) =>
      var n: nat :| Carries(c, selected, limit, n, body, hasMore);
      assert selected[..n] == rest[..n];
      assert Carries(c, rest, limit, n, body, hasMore);
    case RecordTooLarge =>
    case Unavailable =>
      var n: nat :| Fills(c, selected, limit, n) && n < |selected| && n < limit && c.encode(selected[n]).None?;
      assert selected[..n] == rest[..n];
      assert Fills(c, rest, limit, n);
  }

  lemma FramesShorter(c: Codec, events: seq<Event>, n: nat)
    requires AllEncode(c, events) && n < |events|
    ensures AllEncode(c, events[..n]) && c.encode(events[n]).Some?
    ensures |Frames(c, events[..n])| + |Frame(c, events[n])| <= |Frames(c, events)|
  {
    var head, tail := events[..n], events[n + 1..];
    assert events[n] in events && forall e | e in head + tail :: e in events;
    assert events == head + ([events[n]] + tail);
    FramesConcat(c, head, [events[n]] + tail);
    FramesConcat(c, [events[n]], tail);
    FramesSingle(c, events[n]);
  }

  lemma FillsMost(c: Codec, rest: seq<Event>, limit: nat, n: nat, m: nat)
    requires Fills(c, rest, limit, n) && Fills(c, rest, limit, m)
    ensures m <= n
  {
    if n < m {
      assert rest[..m][..n] == rest[..n];
      FramesShorter(c, rest[..m], n);
    }
  }

  /** The journal, the cursor and the limit determine the answer. */
  lemma AnswerUnique(c: Codec, rest: seq<Event>, limit: nat, a: Answer, b: Answer)
    requires limit >= 1 && Replayed(c, rest, limit, a) && Replayed(c, rest, limit, b)
    ensures a == b
  {
    var n := FilledBy(c, rest, limit, a);
    var m := FilledBy(c, rest, limit, b);
    FillsMost(c, rest, limit, n, m);
    FillsMost(c, rest, limit, m, n);
  }

  /** An answer shows how many events fill the page. */
  lemma FilledBy(c: Codec, rest: seq<Event>, limit: nat, a: Answer) returns (n: nat)
    requires limit >= 1 && Replayed(c, rest, limit, a)
    ensures Fills(c, rest, limit, n)
    ensures a == if n < |rest| && n < limit && c.encode(rest[n]).None? then Unavailable
                 else if n == 0 && rest != [] then RecordTooLarge
                 else Page(Frames(c, rest[..n]), n < |rest|)
  {
    match a
    case Page(body, hasMore) => n :| Carries(c, rest, limit, n, body, hasMore);
    case RecordTooLarge => n := 0;
    case Unavailable => n :| Fills(c, rest, limit, n) && n < |rest| && n < limit && c.encode(rest[n]).None?;
  }
}
