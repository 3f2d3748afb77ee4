/** A reader that pages through a journal by the last identifier it received. */
module ReplaySessions {
  import opened Text
  import opened Resources
  import opened Journal
  import opened EventReplay
  import opened Requests
  import opened Handlers
  import opened Runs
  import opened Lifecycle

  lemma {:induction false} BeyondNone(events: seq<Event>, cursor: nat)
    requires forall i | 0 <= i < |events| :: SequenceOf(events[i]) <= cursor
    ensures Beyond(events, cursor) == []
  {
    if events != [] {
      BeyondNone(events[..|events| - 1], cursor);
    }
  }

  lemma BeyondSplit(before: seq<Event>, after: seq<Event>, journal: seq<Event>, cursor: nat)
    requires journal == before + after
    requires forall i | 0 <= i < |before| :: SequenceOf(before[i]) <= cursor
    requires forall i | 0 <= i < |after| :: SequenceOf(after[i]) > cursor
    ensures Beyond(journal, cursor) == after
  {
    BeyondConcat(before, after, cursor);
    BeyondNone(before, cursor);
    BeyondAll(after, cursor);
  }

  /** In a numbered journal the events beyond a cursor are a suffix. */
  lemma BeyondNumbered(journal: seq<Event>, cursor: nat)
    requires Numbered(journal)
    ensures Beyond(journal, cursor) == if cursor <= |journal| then journal[cursor..] else []
  {
    if cursor <= |journal| {
      BeyondSplit(journal[..cursor], journal[cursor..], journal, cursor);
    } else {
      BeyondNone(journal, cursor);
    }
  }

  /** The part of a journal after one position and up to another. */
  function Between(journal: seq<Event>, from: nat, to: nat): seq<Event> {
    if from <= to <= |journal| then journal[from..to] else []
  }

  /** One request for a page: the journal there was, what was asked, and the page. */
  datatype Exchange = Exchange(journal: seq<Event>, cursor: nat, limit: nat, body: string, hasMore: bool)

  ghost predicate Served(c: Codec, x: Exchange) {
    Numbered(x.journal) && x.limit >= 1 && Replayed(c, Beyond(x.journal, x.cursor), x.limit, Page(x.body, x.hasMore))
  }

  /** Where the reader goes on: the identifier of the last record in the text, or where it was. */
  function Resume(x: Exchange): nat {
    var records := Parse(x.body);
    if records == [] then x.cursor else ParseDecimal(records[|records| - 1].id)
  }

  /** The page is the stretch of the journal up to `end`, within both limits; more remain exactly when it says so, and
      then it has made progress. */
  ghost predicate Advances(c: Codec, x: Exchange, end: nat) {
    && x.cursor <= end && (x.cursor < end ==> end <= |x.journal|)
    && AllEncode(c, Between(x.journal, x.cursor, end))
    && x.body == Frames(c, Between(x.journal, x.cursor, end))
    && end - x.cursor <= x.limit && |x.body| <= MAXIMUM_PAGE_BYTES
    && (x.hasMore <==> end < |x.journal|)
    && (x.hasMore ==> x.cursor < end)
  }

  /** A page is the next stretch of the journal, up to the last identifier in its text. */
  lemma PageAdvances(c: Codec, x: Exchange)
    requires OneLine(c) && Served(c, x)
    ensures Advances(c, x, Resume(x))
    ensures Parse(x.body) == RecordsOf(c, Between(x.journal, x.cursor, Resume(x)))
  {
    var n := PageIsStretch(c, x);
    Settles(c, x, n);
  }

  lemma Settles(c: Codec, x: Exchange, n: nat)
    requires OneLine(c) && Numbered(x.journal) && Advances(c, x, x.cursor + n) && |Between(x.journal, x.cursor, x.cursor + n)| == n
    ensures Advances(c, x, Resume(x))
    ensures Parse(x.body) == RecordsOf(c, Between(x.journal, x.cursor, Resume(x)))
  {
    ResumesAfter(c, x, n);
  }

  lemma PageIsStretch(c: Codec, x: Exchange) returns (n: nat)
    requires Served(c, x)
    ensures Advances(c, x, x.cursor + n) && |Between(x.journal, x.cursor, x.cursor + n)| == n
  {
    var rest := Beyond(x.journal, x.cursor);
    BeyondNumbered(x.journal, x.cursor);
    n :| Carries(c, rest, x.limit, n, x.body, x.hasMore);
    StretchCarried(c, x, rest, n);
  }

  lemma StretchCarried(c: Codec, x: Exchange, rest: seq<Event>, n: nat)
    requires rest == (if x.cursor <= |x.journal| then x.journal[x.cursor..] else [])
    requires Carries(c, rest, x.limit, n, x.body, x.hasMore)
    ensures Advances(c, x, x.cursor + n) && |Between(x.journal, x.cursor, x.cursor + n)| == n
  {
    SuffixStretch(x.journal, x.cursor, rest, n);
  }

  lemma SuffixStretch(journal: seq<Event>, cursor: nat, rest: seq<Event>, n: nat)
    requires rest == (if cursor <= |journal| then journal[cursor..] else []) && n <= |rest|
    ensures Between(journal, cursor, cursor + n) == rest[..n]
    ensures n < |rest| <==> cursor + n < |journal|
    ensures n > 0 ==> cursor + n <= |journal|
  {
  }

  lemma ResumesAfter(c: Codec, x: Exchange, n: nat)
    requires OneLine(c) && Numbered(x.journal)
    requires |Between(x.journal, x.cursor, x.cursor + n)| == n && AllEncode(c, Between(x.journal, x.cursor, x.cursor + n))
    requires x.body == Frames(c, Between(x.journal, x.cursor, x.cursor + n))
    ensures Resume(x) == x.cursor + n
    ensures Parse(x.body) == RecordsOf(c, Between(x.journal, x.cursor, x.cursor + n))
  {
    StretchLast(x.journal, x.cursor, n);
    ResumesAtLast(c, x, Between(x.journal, x.cursor, x.cursor + n));
  }

  lemma StretchLast(journal: seq<Event>, cursor: nat, n: nat)
    requires Numbered(journal) && |Between(journal, cursor, cursor + n)| == n
    ensures n > 0 ==> SequenceOf(Between(journal, cursor, cursor + n)[n - 1]) == cursor + n
  {
  }

  /** A reader goes on from the sequence of the last event shown. */
  lemma ResumesAtLast(c: Codec, x: Exchange, shown: seq<Event>)
    requires OneLine(c) && AllEncode(c, shown) && x.body == Frames(c, shown)
    ensures Parse(x.body) == RecordsOf(c, shown)
    ensures Resume(x) == if shown == [] then x.cursor else SequenceOf(shown[|shown| - 1])
  {
    FramesRoundTrip(c, shown);
    RecordsLast(c, shown);
    if shown != [] {
      DecimalRoundTrip(SequenceOf(shown[|shown| - 1]));
    }
  }

  lemma {:induction false} RecordsLast(c: Codec, events: seq<Event>)
    requires AllEncode(c, events)
    ensures |RecordsOf(c, events)| == |events|
    ensures events != [] ==> RecordsOf(c, events)[|events| - 1] == Encoded(c, events[|events| - 1])
  {
    if events != [] {
      assert forall e | e in events[1..] :: e in events;
      RecordsLast(c, events[1..]);
    }
  }

  // ---- Whole sessions -----------------------------------------------------------------------------------------

  /** Successive pages: each resumes where the one before ended, on a journal that may have grown. */
  ghost predicate Session(c: Codec, xs: seq<Exchange>) {
    xs == [] ||
    var n := |xs| - 1;
    && Session(c, xs[..n])
    && Served(c, xs[n])
    && (n > 0 ==> xs[n].cursor == Resume(xs[n - 1]) && xs[n - 1].journal <= xs[n].journal)
  }

  function Transcript(xs: seq<Exchange>): string {
    if xs == [] then [] else Transcript(xs[..|xs| - 1]) + xs[|xs| - 1].body
  }

  function Records(xs: seq<Exchange>): seq<Record> {
    if xs == [] then [] else Records(xs[..|xs| - 1]) + Parse(xs[|xs| - 1].body)
  }

  /** The text and the records are exactly those of one stretch of the journal, which reaches its end unless more remains. */
  ghost predicate Received(c: Codec, journal: seq<Event>, start: nat, end: nat, text: string, records: seq<Record>, hasMore: bool) {
    && start <= end && (start < end ==> end <= |journal|)
    && var stretch := Between(journal, start, end);
    && AllEncode(c, stretch) && text == Frames(c, stretch) && records == RecordsOf(c, stretch)
    && (!hasMore ==> end >= |journal|)
  }

  lemma PageReceived(c: Codec, x: Exchange)
    requires OneLine(c) && Served(c, x)
    ensures Received(c, x.journal, x.cursor, Resume(x), x.body, Parse(x.body), x.hasMore)
  {
    PageAdvances(c, x);
  }

  lemma ReceivedOn(c: Codec, before: seq<Event>, after: seq<Event>, start: nat, middle: nat, end: nat,
                   text: string, records: seq<Record>, more: bool, body: string, parsed: seq<Record>, hasMore: bool)
    requires before <= after && Received(c, before, start, middle, text, records, more)
    requires Received(c, after, middle, end, body, parsed, hasMore)
    ensures Received(c, after, start, end, text + body, records + parsed, hasMore)
  {
    var done, next := Between(before, start, middle), Between(after, middle, end);
    StretchGrows(before, after, start, middle, end);
    AllEncodeConcat(c, done, next);
    FramesConcat(c, done, next);
    RecordsConcat(c, done, next);
  }

  /** However the pages fall and however the journal grows, a session receives one unbroken stretch of the journal:
      no gap, no repetition, in order; and a page without more has reached the end. */
  lemma {:induction false} SessionIsExact(c: Codec, xs: seq<Exchange>)
    requires OneLine(c) && Session(c, xs) && xs != []
    ensures var last := xs[|xs| - 1];
      Received(c, last.journal, xs[0].cursor, Resume(last), Transcript(xs), Records(xs), last.hasMore)
  {
    var n := |xs| - 1;
    PageReceived(c, xs[n]);
    if n == 0 {
      FirstPage(xs);
    } else {
      SessionIsExact(c, xs[..n]);
      NextPage(c, xs);
      var before, last := xs[..n][n - 1], xs[n];
      ReceivedOn(c, before.journal, last.journal, xs[0].cursor, last.cursor, Resume(last),
                 Transcript(xs[..n]), Records(xs[..n]), before.hasMore, last.body, Parse(last.body), last.hasMore);
    }
  }

  lemma FirstPage(xs: seq<Exchange>)
    requires |xs| == 1
    ensures Transcript(xs) == xs[0].body && Records(xs) == Parse(xs[0].body)
  {
    assert Transcript(xs[..0]) == [] && Records(xs[..0]) == [];
  }

  lemma NextPage(c: Codec, xs: seq<Exchange>)
    requires Session(c, xs) && |xs| > 1
    ensures var n := |xs| - 1;
      && xs[..n][0] == xs[0] && xs[n].cursor == Resume(xs[..n][n - 1]) && xs[..n][n - 1].journal <= xs[n].journal
      && Transcript(xs) == Transcript(xs[..n]) + xs[n].body && Records(xs) == Records(xs[..n]) + Parse(xs[n].body)
  {
  }

  lemma StretchGrows(before: seq<Event>, after: seq<Event>, start: nat, middle: nat, end: nat)
    requires before <= after && start <= middle <= end
    requires (start < middle ==> middle <= |before|) && (middle < end ==> end <= |after|)
    ensures Between(after, start, end) == Between(before, start, middle) + Between(after, middle, end)
  {
  }

  lemma {:induction false} RecordsConcat(c: Codec, a: seq<Event>, b: seq<Event>)
    requires AllEncode(c, a) && AllEncode(c, b)
    ensures RecordsOf(c, a + b) == RecordsOf(c, a) + RecordsOf(c, b)
  {
    if a == [] {
      assert a + b == b;
    } else {
      assert (a + b)[1..] == a[1..] + b;
      RecordsConcat(c, a[1..], b);
    }
  }

  /** A finished bounded session has received exactly what one unlimited replay sends. */
  lemma BoundedRefinesUnlimited(c: Codec, xs: seq<Exchange>, sent: string)
    requires OneLine(c) && Session(c, xs) && xs != [] && !xs[|xs| - 1].hasMore
    requires Streamed(c, Beyond(xs[|xs| - 1].journal, xs[0].cursor), sent)
    ensures Transcript(xs) == sent
  {
    var last := xs[|xs| - 1];
    SessionIsExact(c, xs);
    WholeStretch(last.journal, xs[0].cursor, Resume(last));
    StreamIsWhole(c, Beyond(last.journal, xs[0].cursor), sent);
  }

  lemma WholeStretch(journal: seq<Event>, start: nat, end: nat)
    requires Numbered(journal) && start <= end && end >= |journal| && (start < end ==> end <= |journal|)
    ensures Beyond(journal, start) == Between(journal, start, end)
  {
    BeyondNumbered(journal, start);
  }

  lemma StreamIsWhole(c: Codec, rest: seq<Event>, sent: string)
    requires AllEncode(c, rest) && Streamed(c, rest, sent)
    ensures sent == Frames(c, rest)
  {
    forall i | 0 <= i < |rest| ensures c.encode(rest[i]).Some? {
      assert rest[i] in rest;
    }
    var n: nat :| n <= |rest| && AllEncode(c, rest[..n]) && sent == Frames(c, rest[..n]) && (n < |rest| ==> c.encode(rest[n]).None?);
    assert n == |rest|;
    assert rest[..n] == rest;
  }

  /** When every event encodes, the only answer that stops a reader is a record whose own frame exceeds a page. */
  lemma OnlyOversizeStops(c: Codec, journal: seq<Event>, cursor: nat, limit: nat, answer: Answer)
    requires Numbered(journal) && AllEncode(c, journal) && limit >= 1
    requires Replayed(c, Beyond(journal, cursor), limit, answer)
    ensures answer.Page? || answer.RecordTooLarge?
    ensures answer.RecordTooLarge? <==> cursor < |journal| && |Frame(c, journal[cursor])| > MAXIMUM_PAGE_BYTES
  {
    var rest := Beyond(journal, cursor);
    BeyondNumbered(journal, cursor);
    if answer.Page? {
      var n: nat :| Carries(c, rest, limit, n, answer.body, answer.hasMore);
      if cursor < |journal| {
        assert n > 0 && rest[0] == journal[cursor];
        var shown := rest[..n];
        FramesFirst(c, shown);
      }
    }
  }

  // ---- Sessions while the server runs ------------------------------------------------------------------------------

  /** The i-th page was read after `moments[i]` requests, and each page resumes where the one before ended. */
  ghost predicate ReadDuring(p: Platform, requests: seq<Request>, key: string, c: Codec, moments: seq<nat>, xs: seq<Exchange>) {
    && |moments| == |xs|
    && (forall i | 0 <= i < |xs| :: moments[i] <= |requests| && ReadAt(p, requests, key, c, moments[i], xs[i]))
    && (forall i, j | 0 <= i < |xs| && j == i + 1 && j < |xs| :: moments[i] <= moments[j] && xs[j].cursor == Resume(xs[i]))
  }

  ghost predicate ReadAt(p: Platform, requests: seq<Request>, key: string, c: Codec, moment: nat, x: Exchange)
    requires moment <= |requests|
  {
    var s := Exec(p, EMPTY, requests[..moment]);
    && key in s.events && x.journal == s.events[key] && x.limit >= 1
    && Replayed(c, Beyond(x.journal, x.cursor), x.limit, Page(x.body, x.hasMore))
  }

  /** Any requests may be served between the pages: what the reader has is still one unbroken stretch of the journal,
      and all of it once a page reports no more. */
  lemma ReplayDuringARun(p: Platform, requests: seq<Request>, key: string, c: Codec, moments: seq<nat>, xs: seq<Exchange>)
    requires FreshRun(p, EMPTY, requests) && OneLine(c) && xs != [] && ReadDuring(p, requests, key, c, moments, xs)
    ensures var last := xs[|xs| - 1]; var stretch := Between(last.journal, xs[0].cursor, Resume(last));
      && AllEncode(c, stretch) && Records(xs) == RecordsOf(c, stretch)
      && (!last.hasMore ==> stretch == Beyond(last.journal, xs[0].cursor))
  {
    RunIsSession(p, requests, key, c, moments, xs, |xs|);
    assert xs[..|xs|] == xs;
    SessionIsExact(c, xs);
    var last := xs[|xs| - 1];
    if !last.hasMore {
      WholeStretch(last.journal, xs[0].cursor, Resume(last));
    }
  }

  lemma {:induction false} RunIsSession(p: Platform, requests: seq<Request>, key: string, c: Codec, moments: seq<nat>, xs: seq<Exchange>, n: nat)
    requires FreshRun(p, EMPTY, requests) && ReadDuring(p, requests, key, c, moments, xs) && n <= |xs|
    ensures Session(c, xs[..n])
  {
    if n > 0 {
      var last := n - 1;
      RunIsSession(p, requests, key, c, moments, xs, last);
      JournalIsNumbered(p, requests, key, c, moments[last], xs[last]);
      if last > 0 {
        JournalsOnlyGrow(p, requests, moments[last - 1], moments[last], key);
      }
      SessionStep(c, xs, last);
    }
  }

  lemma SessionStep(c: Codec, xs: seq<Exchange>, n: nat)
    requires n < |xs| && Session(c, xs[..n]) && Served(c, xs[n])
    requires n > 0 ==> xs[n].cursor == Resume(xs[n - 1]) && xs[n - 1].journal <= xs[n].journal
    ensures Session(c, xs[..n + 1])
  {
    assert xs[..n + 1][..n] == xs[..n];
  }

  lemma JournalIsNumbered(p: Platform, requests: seq<Request>, key: string, c: Codec, moment: nat, x: Exchange)
    requires FreshRun(p, EMPTY, requests) && moment <= |requests|
    ensures ReadAt(p, requests, key, c, moment, x) ==> Served(c, x)
  {
    FreshPrefix(p, EMPTY, requests, moment);
    ReachableStatesHold(p, requests[..moment]);
  }
}
