/** The feed's parser: only LF ends a line, and pending input is capped. */
module FeedSse {
  import opened Cursors
  import opened Utf8
  import opened Sse
  import ClientSse

  const MAX_BUFFERED_BYTES: nat := 4 * 1024 * 1024

  /** A line that is not blank; every id is kept. */
  function FeedAbsorbed(f: Fields, line: string): Fields {
    if line != "" && line[0] != ':' && FieldName(line) == "id" then f.(lastId := Some(FieldValue(line)))
    else Absorbed(f, line)
  }

  function FeedAfterLine(f: Fields, line: seq<byte>): (Fields, seq<SseEvent>) {
    if line == [] then Dispatched(f) else (FeedAbsorbed(f, Decoded(line)), [])
  }

  /** All LF-terminated lines of a buffer processed. */
  function FeedDrained(f: Fields, b: seq<byte>): Parsed
    decreases |b|
  {
    var n := LfAt(b);
    if n == |b| then Parsed(f, b, [])
    else
      var (g, events) := FeedAfterLine(f, WithoutCr(b[..n]));
      var rest := FeedDrained(g, b[n + 1..]);
      Parsed(rest.fields, rest.buf, events + rest.events)
  }

  /** An unterminated line over the cap is dropped with everything pending but the last id. */
  function Capped(p: Parsed): Parsed {
    if |p.buf| > MAX_BUFFERED_BYTES then Parsed(Fields(None, [], p.fields.lastId), [], p.events) else p
  }

  /** What a push over the cap of 4 MiB costs: the unterminated line and the fields pending for the next event. The last
      id and the events already complete are kept. */
  lemma CapDrops(p: Parsed)
    ensures |p.buf| <= 4_194_304 ==> Capped(p) == p
    ensures |p.buf| > 4_194_304 ==>
      var c := Capped(p);
      c.buf == [] && c.events == p.events && c.fields.data == [] && c.fields.event.None? && c.fields.lastId == p.fields.lastId
  {
  }

  class SseParser {
    var buf: seq<byte>
    var dataLines: seq<string>
    var eventType: Option<string>
    var lastEventId: Option<string>

    ghost function State(): Fields
      reads this
    {
      Fields(eventType, dataLines, lastEventId)
    }

    constructor ()
      ensures buf == [] && State() == FRESH
    {
      buf, eventType, dataLines, lastEventId := [], None, [], None;
    }

    method Push(chunk: seq<byte>) returns (out: seq<SseEvent>)
      modifies this
      ensures Parsed(State(), buf, out) == Capped(FeedDrained(old(State()), old(buf) + chunk))
    {
      hide FeedAfterLine;
      buf := buf + chunk;
      out := [];
      while LfAt(buf) < |buf|
        invariant var rest := FeedDrained(State(), buf);
          Parsed(rest.fields, rest.buf, out + rest.events) == FeedDrained(old(State()), old(buf) + chunk)
        decreases |buf|
      {
        var nl := LfAt(buf);
        var line := buf[..nl];
        buf := buf[nl + 1..];
        ghost var before := out;
        if line != [] && line[|line| - 1] == CR {
          line := line[..|line| - 1];
        }
        var ev := FeedLine(line);
        if ev.Some? {
          out := out + [ev.value];
        }
        assert out == before + Listed(ev);
        Chain(before, Listed(ev), FeedDrained(State(), buf).events);
      }
      if |buf| > MAX_BUFFERED_BYTES {
        buf := [];
        dataLines := [];
        eventType := None;
      }
    }

    /** One turn of the loop: a blank line dispatches, any other is processed. */
    method FeedLine(line: seq<byte>) returns (ev: Option<SseEvent>)
      modifies this`eventType, this`dataLines, this`lastEventId
      ensures (State(), Listed(ev)) == FeedAfterLine(old(State()), line)
    {
      var text := Decoded(line);
      if text == "" {
        ev := Dispatch();
      } else {
        ProcessLine(text);
        ev := None;
      }
    }

    method ProcessLine(line: string)
      requires line != ""
      modifies this`eventType, this`dataLines, this`lastEventId
      ensures State() == FeedAbsorbed(old(State()), line)
    {
      if line[0] == ':' {
        return;
      }
      var name, value := FieldName(line), FieldValue(line);
      if name == "data" {
        dataLines := dataLines + [value];
      } else if name == "event" {
        eventType := Some(value);
      } else if name == "id" {
        lastEventId := Some(value);
      }
    }

    method Dispatch() returns (ev: Option<SseEvent>)
      modifies this`eventType, this`dataLines
      ensures (State(), Listed(ev)) == Dispatched(old(State()))
    {
      var was := eventType;
      eventType := None;
      if dataLines == [] {
        return None;
      }
      ev := Some(SseEvent(was, Joined(dataLines), lastEventId));
      dataLines := [];
    }
  }

  // ----- where the two parsers agree -----

  /** Every CR that something follows is followed by LF. */
  predicate CrLfOnly(b: seq<byte>) {
    forall i :: 0 <= i < |b| - 1 && b[i] == CR ==> b[i + 1] == LF
  }

  predicate NulId(line: seq<byte>) {
    FieldName(Decoded(line)) == "id" && '\0' in FieldValue(Decoded(line))
  }

  /** No line, its CR included, passes the feed's cap, and no id field contains NUL. */
  predicate LinesPlain(b: seq<byte>)
    decreases |b|
  {
    var n := LfAt(b);
    n <= MAX_BUFFERED_BYTES && (n == |b| || (!NulId(WithoutCr(b[..n])) && LinesPlain(b[n + 1..])))
  }

  lemma SameLine(f: Fields, line: seq<byte>)
    requires !NulId(line)
    ensures AfterLine(f, line) == FeedAfterLine(f, line)
  {
  }

  /** The two parsers cut the same first line off a buffer. */
  lemma SameSpan(b: seq<byte>)
    requires CrLfOnly(b)
    ensures ClientSse.LineSpan(b).None? <==> LfAt(b) == |b|
    ensures LfAt(b) < |b| ==> ClientSse.LineSpan(b) == Some((|WithoutCr(b[..LfAt(b)])|, LfAt(b) + 1))
    ensures LfAt(b) < |b| ==> b[..|WithoutCr(b[..LfAt(b)])|] == WithoutCr(b[..LfAt(b)])
  {
    var n, m := LfAt(b), ClientSse.BreakAt(b);
    if m < |b| && b[m] == CR && m + 1 < |b| {
      assert b[m + 1] == LF;
    }
    assert m < n ==> b[m] == CR;
    assert 0 < n < |b| ==> b[n - 1] == b[..n][n - 1];
  }

  lemma {:induction false} SameDrain(f: Fields, b: seq<byte>)
    requires CrLfOnly(b) && LinesPlain(b)
    ensures ClientSse.Drained(f, b) == FeedDrained(f, b)
    decreases |b|
  {
    hide ClientSse.LineSpan, AfterLine, FeedAfterLine, NulId, WithoutCr;
    SameSpan(b);
    var n := LfAt(b);
    if n < |b| {
      SameLine(f, WithoutCr(b[..n]));
      assert CrLfOnly(b[n + 1..]) by {
        CrLfSuffix(b, n + 1);
      }
      SameDrain(AfterLine(f, WithoutCr(b[..n])).0, b[n + 1..]);
    }
  }

  lemma CrLfSuffix(b: seq<byte>, n: nat)
    requires CrLfOnly(b) && n <= |b|
    ensures CrLfOnly(b[n..])
  {
    forall i | 0 <= i < |b[n..]| - 1 && b[n..][i] == CR ensures b[n..][i + 1] == LF {
      assert b[n + i] == CR;
      assert b[n + i + 1] == LF;
    }
  }

  /** A plain stream is plain up to any point, and from the line that point falls in. */
  lemma {:induction false} PlainInTwo(f: Fields, b: seq<byte>, c: seq<byte>)
    requires CrLfOnly(b + c) && LinesPlain(b + c)
    ensures CrLfOnly(b) && LinesPlain(b)
    ensures var rest := FeedDrained(f, b).buf;
      |rest| <= MAX_BUFFERED_BYTES && CrLfOnly(rest + c) && LinesPlain(rest + c)
    decreases |b|
  {
    hide FeedAfterLine, NulId, WithoutCr, LfAt;
    assert CrLfOnly(b) by {
      assert forall i :: 0 <= i < |b| ==> (b + c)[i] == b[i];
    }
    assert forall i :: 0 <= i < |b| ==> (b + c)[i] == b[i];
    var n := LfAt(b);
    if n < |b| {
      LfIs(b + c, n);
      assert (b + c)[..n] == b[..n] && (b + c)[n + 1..] == b[n + 1..] + c;
      CrLfSuffix(b + c, n + 1);
      PlainInTwo(FeedAfterLine(f, WithoutCr(b[..n])).0, b[n + 1..], c);
    }
  }

  /** What each push of a run returns. */
  function ClientRun(f: Fields, buf: seq<byte>, chunks: seq<seq<byte>>): seq<seq<SseEvent>>
    decreases |chunks|
  {
    if chunks == [] then []
    else
      var p := ClientSse.Drained(f, buf + chunks[0]);
      [p.events] + ClientRun(p.fields, p.buf, chunks[1..])
  }

  function FeedRun(f: Fields, buf: seq<byte>, chunks: seq<seq<byte>>): seq<seq<SseEvent>>
    decreases |chunks|
  {
    if chunks == [] then []
    else
      var p := Capped(FeedDrained(f, buf + chunks[0]));
      [p.events] + FeedRun(p.fields, p.buf, chunks[1..])
  }

  /** On plain streams the parsers return the same events push by push. */
  lemma {:induction false} SameRuns(f: Fields, buf: seq<byte>, chunks: seq<seq<byte>>)
    requires CrLfOnly(buf + Flat(chunks)) && LinesPlain(buf + Flat(chunks))
    ensures ClientRun(f, buf, chunks) == FeedRun(f, buf, chunks)
    decreases |chunks|
  {
    hide CrLfOnly, LinesPlain, FeedDrained, ClientSse.Drained;
    if chunks != [] {
      var b, c := buf + chunks[0], Flat(chunks[1..]);
      assert buf + Flat(chunks) == b + c;
      PlainInTwo(f, b, c);
      SameDrain(f, b);
      var p := FeedDrained(f, b);
      SameRuns(p.fields, p.buf, chunks[1..]);
    }
  }

  lemma ParsersAgree(chunks: seq<seq<byte>>)
    requires CrLfOnly(Flat(chunks)) && LinesPlain(Flat(chunks))
    ensures ClientRun(FRESH, [], chunks) == FeedRun(FRESH, [], chunks)
  {
    assert [] + Flat(chunks) == Flat(chunks);
    SameRuns(FRESH, [], chunks);
  }

  /** A CR alone ends a line for the client but not for the feed: one event against none. */
  lemma LoneCrDiffers(payload: string)
    requires SingleLine(payload)
    ensures var stream := Encoded(DataLine(payload)) + [CR, CR, LF];
      ClientSse.Drained(FRESH, stream).events == [SseEvent(None, payload, None)]
      && FeedDrained(FRESH, stream).events == []
  {
    PlainLine(payload);
    LoneCrEndsLine(Encoded(DataLine(payload)), payload);
    LoneCrKept(Encoded(DataLine(payload)));
  }

  lemma LoneCrEndsLine(line: seq<byte>, payload: string)
    requires line == Encoded(DataLine(payload))
    requires forall i :: 0 <= i < |line| ==> line[i] != LF && line[i] != CR
    ensures ClientSse.Drained(FRESH, line + [CR, CR, LF]).events == [SseEvent(None, payload, None)]
  {
    hide AfterLine;
    var stream := line + [CR, CR, LF];
    DataLineAbsorbed(FRESH, payload);
    assert forall i :: 0 <= i < |line| ==> stream[i] == line[i];
    assert stream[|line|] == CR && stream[|line| + 1] == CR;
    assert stream[..|line|] == line && stream[|line| + 1..] == [CR, LF];
    ClientSse.BreakIs(stream, |line|);
    assert ClientSse.LineSpan(stream) == Some((|line|, |line| + 1));
    BlankDrains(FRESH.(data := FRESH.data + [payload]), payload);
  }

  lemma LoneCrKept(line: seq<byte>)
    requires forall i :: 0 <= i < |line| ==> line[i] != LF
    ensures FeedDrained(FRESH, line + [CR, CR, LF]).events == []
  {
    hide FeedAfterLine;
    var stream := line + [CR, CR, LF];
    assert forall i :: 0 <= i < |line| ==> stream[i] == line[i];
    LfIs(stream, |line| + 2);
    assert stream[|line| + 3..] == [] && WithoutCr(stream[..|line| + 2]) != [];
    NoEvent(FRESH, WithoutCr(stream[..|line| + 2]));
  }

  lemma BlankDrains(f: Fields, payload: string)
    requires f == FRESH.(data := FRESH.data + [payload])
    ensures ClientSse.Drained(f, [CR, LF]).events == [SseEvent(None, payload, None)]
  {
    assert ClientSse.LineSpan([CR, LF]) == Some((0, 2));
    assert [CR, LF][..0] == [] && [CR, LF][2..] == [];
    assert FRESH.data + [payload] == [payload];
    assert ClientSse.Drained(Fields(None, [], None), []).events == [];
  }

  lemma NoEvent(f: Fields, line: seq<byte>)
    requires line != []
    ensures FeedAfterLine(f, line).1 == []
  {
  }

  // ----- reading back printed frames -----

  lemma {:induction false} RunDrains(f: Fields, buf: seq<byte>, chunks: seq<seq<byte>>)
    requires ClientSse.LineSpan(buf).None?
    ensures Flat(ClientRun(f, buf, chunks)) == ClientSse.Drained(f, buf + Flat(chunks)).events
    decreases |chunks|
  {
    hide ClientSse.LineSpan;
    if chunks == [] {
      assert buf + Flat(chunks) == buf;
    } else {
      var b, c := buf + chunks[0], Flat(chunks[1..]);
      assert buf + Flat(chunks) == b + c;
      ClientSse.DrainedInTwo(f, b, c);
      var p := ClientSse.Drained(f, b);
      ClientSse.DrainedStops(f, b);
      RunDrains(p.fields, p.buf, chunks[1..]);
    }
  }

  lemma {:induction false} PrintedPlain(payloads: seq<string>)
    requires forall p :: p in payloads ==> SingleLine(p) && |Encoded(DataLine(p))| <= MAX_BUFFERED_BYTES
    ensures CrLfOnly(Printed(payloads)) && LinesPlain(Printed(payloads))
  {
    if payloads != [] {
      var line, rest := Encoded(DataLine(payloads[0])), Printed(payloads[1..]);
      PrintedPlain(payloads[1..]);
      PlainLine(payloads[0]);
      FrameFront(line, rest);
    }
  }

  lemma PlainLine(payload: string)
    requires SingleLine(payload)
    ensures forall i :: 0 <= i < |Encoded(DataLine(payload))| ==>
      Encoded(DataLine(payload))[i] != LF && Encoded(DataLine(payload))[i] != CR
    ensures !NulId(Encoded(DataLine(payload)))
  {
    EncodedSingleLine(DataLine(payload));
    DecodeEncoded(DataLine(payload));
    assert DataLine(payload)[0] == 'd';
    assert ColonAt(DataLine(payload)) > 0;
  }

  lemma FrameFront(line: seq<byte>, rest: seq<byte>)
    requires forall i :: 0 <= i < |line| ==> line[i] != LF && line[i] != CR
    requires |line| <= MAX_BUFFERED_BYTES && !NulId(line)
    requires CrLfOnly(rest) && LinesPlain(rest)
    ensures CrLfOnly(line + ([LF, LF] + rest)) && LinesPlain(line + ([LF, LF] + rest))
  {
    hide NulId;
    var b, c := line + ([LF, LF] + rest), [LF] + rest;
    assert b[|line|] == LF && forall i :: 0 <= i < |line| ==> b[i] == line[i];
    LfIs(b, |line|);
    assert b[..|line|] == line && b[|line| + 1..] == c;
    LfIs(c, 0);
    assert c[..0] == [] && c[1..] == rest;
    BlankIsPlain();
    assert CrLfOnly(b) by {
      FrameCrLf(line, rest);
    }
  }

  lemma FrameCrLf(line: seq<byte>, rest: seq<byte>)
    requires forall i :: 0 <= i < |line| ==> line[i] != LF && line[i] != CR
    requires CrLfOnly(rest)
    ensures CrLfOnly(line + ([LF, LF] + rest))
  {
    var b := line + ([LF, LF] + rest);
    assert forall i :: 0 <= i < |line| ==> b[i] == line[i];
    assert b[|line|] == LF && b[|line| + 1] == LF && b[|line| + 2..] == rest;
    forall i | 0 <= i < |b| - 1 && b[i] == CR ensures b[i + 1] == LF {
      assert i >= |line| + 2;
      assert b[i] == rest[i - |line| - 2] && b[i + 1] == rest[i - |line| - 1];
    }
  }

  lemma BlankIsPlain()
    ensures !NulId([]) && WithoutCr([]) == []
  {
  }

  /** Printed frames are read back by both parsers, in whatever chunks they arrive. */
  lemma PrintedReadBack(payloads: seq<string>, chunks: seq<seq<byte>>)
    requires forall p :: p in payloads ==> SingleLine(p)
    requires Flat(chunks) == Printed(payloads)
    ensures Flat(ClientRun(FRESH, [], chunks)) == EventsOf(payloads)
    ensures (forall p :: p in payloads ==> |Encoded(DataLine(p))| <= MAX_BUFFERED_BYTES) ==>
      Flat(FeedRun(FRESH, [], chunks)) == EventsOf(payloads)
  {
    assert [] + Flat(chunks) == Flat(chunks);
    RunDrains(FRESH, [], chunks);
    ClientSse.PrintedDrained(payloads);
    if forall p :: p in payloads ==> |Encoded(DataLine(p))| <= MAX_BUFFERED_BYTES {
      PrintedPlain(payloads);
      ParsersAgree(chunks);
    }
  }
}
