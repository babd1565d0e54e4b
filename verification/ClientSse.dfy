/** The client's incremental parser: chunks may split lines, CRLF pairs and UTF-8 sequences anywhere. */
module ClientSse {
  import opened Cursors
  import opened Utf8
  import opened Sse

  /** Index of the first LF or CR, or the length when there is none. */
  function BreakAt(b: seq<byte>): (n: nat)
    ensures n <= |b|
    ensures n < |b| ==> b[n] == LF || b[n] == CR
    ensures forall i :: 0 <= i < n ==> b[i] != LF && b[i] != CR
  {
    if b == [] || b[0] == LF || b[0] == CR then 0 else 1 + BreakAt(b[1..])
  }

  lemma BreakIs(b: seq<byte>, n: nat)
    requires n < |b| && (b[n] == LF || b[n] == CR) && forall i :: 0 <= i < n ==> b[i] != LF && b[i] != CR
    ensures BreakAt(b) == n
  {
  }

  /** Where the first complete line ends and the next begins; a CR at the very end is deferred. */
  function LineSpan(b: seq<byte>): (r: Option<(nat, nat)>)
    ensures r.Some? ==> r.value.0 < r.value.1 <= |b|
  {
    var n := BreakAt(b);
    if n == |b| || (b[n] == CR && n + 1 == |b|) then None
    else if b[n] == CR && b[n + 1] == LF then Some((n, n + 2))
    else Some((n, n + 1))
  }

  /** All complete lines of a buffer processed. */
  function Drained(f: Fields, b: seq<byte>): Parsed
    decreases |b|
  {
    match LineSpan(b)
    case None => Parsed(f, b, [])
    case Some((end, next)) =>
      var (g, events) := AfterLine(f, b[..end]);
      var rest := Drained(g, b[next..]);
      Parsed(rest.fields, rest.buf, events + rest.events)
  }

  /** What the end of the stream yields, an unterminated line counting as complete. */
  function Finished(f: Fields, b: seq<byte>): (Fields, seq<SseEvent>) {
    if b == [] then Dispatched(f)
    else
      var (g, events) := AfterLine(f, WithoutCr(b));
      (Dispatched(g).0, events + Dispatched(g).1)
  }

  class SseParser {
    var buf: seq<byte>
    var event: Option<string>
    var data: seq<string>
    var lastId: Option<string>

    ghost function State(): Fields
      reads this
    {
      Fields(event, data, lastId)
    }

    constructor ()
      ensures buf == [] && State() == FRESH
    {
      buf, event, data, lastId := [], None, [], None;
    }

    static method FindLine(b: seq<byte>) returns (r: Option<(nat, nat)>)
      ensures r == LineSpan(b)
    {
      for i := 0 to |b|
        invariant BreakAt(b) >= i
      {
        if b[i] == LF {
          return Some((i, i + 1));
        }
        if b[i] == CR {
          if i + 1 < |b| {
            var skip := if b[i + 1] == LF then 2 else 1;
            return Some((i, i + skip));
          }
          return None;
        }
      }
      return None;
    }

    method Push(chunk: seq<byte>) returns (out: seq<SseEvent>)
      modifies this
      ensures Parsed(State(), buf, out) == Drained(old(State()), old(buf) + chunk)
    {
      hide LineSpan, AfterLine;
      buf := buf + chunk;
      out := [];
      var span := FindLine(buf);
      while span.Some?
        invariant span == LineSpan(buf)
        invariant var rest := Drained(State(), buf);
          Parsed(rest.fields, rest.buf, out + rest.events) == Drained(old(State()), old(buf) + chunk)
        decreases |buf|
      {
        var (end, next) := span.value;
        var line := buf[..end];
        buf := buf[next..];
        ghost var before := out;
        var ev := ProcessLine(line);
        if ev.Some? {
          out := out + [ev.value];
        }
        assert out == before + Listed(ev);
        Chain(before, Listed(ev), Drained(State(), buf).events);
        span := FindLine(buf);
      }
    }

    method Finish() returns (ev: Option<SseEvent>)
      modifies this
      ensures buf == [] && (State(), Listed(ev)) == Finished(old(State()), old(buf))
    {
      if buf != [] {
        var line := buf;
        buf := [];
        if line[|line| - 1] == CR {
          line := line[..|line| - 1];
        }
        ev := ProcessLine(line);
        if ev.Some? {
          assert Dispatched(State()) == (State(), []) && Listed(ev) + [] == Listed(ev);
          return;
        }
      }
      ev := Dispatch();
      assert [] + Listed(ev) == Listed(ev);
    }

    method ProcessLine(line: seq<byte>) returns (ev: Option<SseEvent>)
      modifies this`event, this`data, this`lastId
      ensures (State(), Listed(ev)) == AfterLine(old(State()), line)
    {
      if line == [] {
        ev := Dispatch();
        return;
      }
      var text := Decoded(line);
      if text[0] == ':' {
        return None;
      }
      var name, value := FieldName(text), FieldValue(text);
      if name == "data" {
        data := data + [value];
      } else if name == "event" {
        event := Some(value);
      } else if name == "id" && '\0' !in value {
        lastId := Some(value);
      }
      return None;
    }

    method Dispatch() returns (ev: Option<SseEvent>)
      modifies this`event, this`data
      ensures (State(), Listed(ev)) == Dispatched(old(State()))
    {
      var was := event;
      event := None;
      if data == [] {
        return None;
      }
      ev := Some(SseEvent(was, Joined(data), lastId));
      data := [];
    }
  }

  // ----- chunking does not matter -----

  /** More bytes do not move a line already complete. */
  lemma LineSpanStable(b: seq<byte>, c: seq<byte>)
    requires LineSpan(b).Some?
    ensures LineSpan(b + c) == LineSpan(b)
  {
    BreakStable(b, c);
  }

  lemma BreakStable(b: seq<byte>, c: seq<byte>)
    ensures BreakAt(b) < |b| ==> BreakAt(b + c) == BreakAt(b)
    ensures BreakAt(b) == |b| ==> BreakAt(b + c) >= |b|
  {
    assert forall i :: 0 <= i < |b| ==> (b + c)[i] == b[i];
    if BreakAt(b) < |b| {
      BreakIs(b + c, BreakAt(b));
    }
  }

  /** Nothing complete is left behind. */
  lemma {:induction false} DrainedStops(f: Fields, b: seq<byte>)
    ensures LineSpan(Drained(f, b).buf).None?
    decreases |b|
  {
    hide AfterLine;
    if LineSpan(b).Some? {
      var (end, next) := LineSpan(b).value;
      DrainedStops(AfterLine(f, b[..end]).0, b[next..]);
    }
  }

  /** Draining two chunks one after the other is draining them joined. */
  lemma {:induction false} DrainedInTwo(f: Fields, b: seq<byte>, c: seq<byte>)
    ensures var p := Drained(f, b); var q := Drained(p.fields, p.buf + c);
      Drained(f, b + c) == Parsed(q.fields, q.buf, p.events + q.events)
    decreases |b|
  {
    hide LineSpan, AfterLine;
    if LineSpan(b).Some? {
      LineSpanStable(b, c);
      var (end, next) := LineSpan(b).value;
      var (g, events) := AfterLine(f, b[..end]);
      assert (b + c)[..end] == b[..end] && (b + c)[next..] == b[next..] + c;
      DrainedInTwo(g, b[next..], c);
      var p := Drained(g, b[next..]);
      assert events + (p.events + Drained(p.fields, p.buf + c).events)
          == (events + p.events) + Drained(p.fields, p.buf + c).events;
    }
  }

  lemma NormalisedLine(b: seq<byte>, n: nat)
    requires n <= |b| && forall i :: 0 <= i < n ==> b[i] != CR
    ensures Normalised(b) == b[..n] + Normalised(b[n..])
  {
    if n > 0 {
      NormalisedLine(b[1..], n - 1);
      assert b[1..][n - 1..] == b[n..];
      assert b[..n] == [b[0]] + b[1..][..n - 1];
      Chain([b[0]], b[1..][..n - 1], Normalised(b[n..]));
    } else {
      assert b[0..] == b;
    }
  }

  /** One terminated line of the fold. */
  lemma FoldLine(f: Fields, line: seq<byte>, rest: seq<byte>)
    requires forall i :: 0 <= i < |line| ==> line[i] != LF
    ensures Fold(f, line + [LF] + rest) == AfterLine(f, line).1 + Fold(AfterLine(f, line).0, rest)
  {
    hide AfterLine, Dispatched;
    var b := line + [LF] + rest;
    assert forall i :: 0 <= i < |line| ==> b[i] == line[i];
    LfIs(b, |line|);
    assert b[..|line|] == line && b[|line| + 1..] == rest;
  }

  /** The buffer's first line is the first line of the normalised stream. */
  lemma FirstLine(f: Fields, b: seq<byte>)
    requires LineSpan(b).Some?
    ensures var (end, next) := LineSpan(b).value;
      var (g, events) := AfterLine(f, b[..end]);
      Fold(f, Normalised(b)) == events + Fold(g, Normalised(b[next..]))
  {
    hide Fold, AfterLine;
    var (end, next) := LineSpan(b).value;
    var tail := Normalised(b[next..]);
    NormalisedLine(b, end);
    assert b[end..][1..] == b[end + 1..];
    assert b[end] == CR && b[end + 1] == LF ==> b[end..][2..] == b[next..];
    assert Normalised(b[end..]) == [LF] + tail;
    assert Normalised(b) == b[..end] + [LF] + tail;
    FoldLine(f, b[..end], tail);
  }

  lemma LastLineFinishes(f: Fields, b: seq<byte>)
    requires LineSpan(b).None?
    ensures Fold(f, Normalised(b)) == Finished(f, b).1
  {
    hide AfterLine, Dispatched, Fold;
    var line := WithoutCr(b);
    if BreakAt(b) < |b| {
      assert b == line + [CR];
      NormalisedLine(b, |line|);
      assert b[|line|..] == [CR] && [CR][1..] == [];
      assert Normalised([CR]) == [LF];
      assert Normalised(b) == line + [LF] + [];
      FoldLine(f, line, []);
      FoldEnd(AfterLine(f, line).0);
      if line == [] {
        DispatchedOnce(f);
      }
    } else {
      NormalisedLine(b, |b|);
      assert b[|b|..] == [] && b[..|b|] == b && Normalised(b) == b;
      FoldLast(f, b);
    }
  }

  lemma FoldEnd(f: Fields)
    ensures Fold(f, []) == Dispatched(f).1
  {
  }

  lemma DispatchedOnce(f: Fields)
    ensures AfterLine(f, []) == Dispatched(f) && Dispatched(Dispatched(f).0).1 == []
  {
  }

  lemma FoldLast(f: Fields, line: seq<byte>)
    requires forall i :: 0 <= i < |line| ==> line[i] != LF
    ensures Fold(f, line) == Finished(f, line).1 || (line != [] && line[|line| - 1] == CR)
  {
    hide AfterLine, Dispatched;
    assert line[..|line|] == line;
  }

  /** Draining the whole stream and finishing is the left fold over its lines. */
  lemma {:induction false} DrainedIsFold(f: Fields, b: seq<byte>)
    ensures var p := Drained(f, b); p.events + Finished(p.fields, p.buf).1 == Fold(f, Normalised(b))
    decreases |b|
  {
    hide LineSpan, AfterLine, Fold, Finished, Normalised;
    if LineSpan(b).Some? {
      var (end, next) := LineSpan(b).value;
      FirstLine(f, b);
      DrainedIsFold(AfterLine(f, b[..end]).0, b[next..]);
    } else {
      LastLineFinishes(f, b);
    }
  }

  lemma NothingDrained()
    ensures Drained(FRESH, Flat([])) == Parsed(FRESH, [], [])
  {
  }

  /** However a stream is cut into chunks, the events are those of its lines. */
  method ParseChunks(chunks: seq<seq<byte>>) returns (events: seq<SseEvent>)
    ensures events == Meaning(Flat(chunks))
  {
    hide Drained, Fold, Finished, Normalised;
    var parser := new SseParser();
    events := [];
    assert chunks[..0] == [];
    NothingDrained();
    for i := 0 to |chunks|
      invariant Parsed(parser.State(), parser.buf, events) == Drained(FRESH, Flat(chunks[..i]))
    {
      DrainedInTwo(FRESH, Flat(chunks[..i]), chunks[i]);
      FlatSnoc(chunks[..i], chunks[i]);
      assert chunks[..i + 1] == chunks[..i] + [chunks[i]];
      var more := parser.Push(chunks[i]);
      events := events + more;
    }
    assert chunks[..|chunks|] == chunks;
    DrainedIsFold(FRESH, Flat(chunks));
    var last := parser.Finish();
    if last.Some? {
      events := events + [last.value];
    }
  }

  // ----- reading back what the server printed -----

  lemma LfEnds(line: seq<byte>, rest: seq<byte>)
    requires forall i :: 0 <= i < |line| ==> line[i] != LF && line[i] != CR
    ensures var b := line + ([LF] + rest);
      LineSpan(b) == Some((|line|, |line| + 1)) && b[..|line|] == line && b[|line| + 1..] == rest
  {
    var b := line + ([LF] + rest);
    assert forall i :: 0 <= i < |line| ==> b[i] == line[i];
    assert b[|line|] == LF;
    BreakIs(b, |line|);
  }

  lemma OneDataLine(f: Fields, payload: string)
    requires f == Fields(None, [], f.lastId)
    ensures AfterLine(f.(data := f.data + [payload]), []) == (f, [SseEvent(None, payload, f.lastId)])
  {
    assert f.data + [payload] == [payload];
  }

  lemma FrameDrained(id: Option<string>, payload: string, rest: seq<byte>)
    requires SingleLine(payload)
    ensures var p := Drained(Fields(None, [], id), rest);
      Drained(Fields(None, [], id), Encoded(DataLine(payload)) + ([LF, LF] + rest))
        == Parsed(p.fields, p.buf, [SseEvent(None, payload, id)] + p.events)
  {
    hide AfterLine, LineSpan;
    var f := Fields(None, [], id);
    var line := Encoded(DataLine(payload));
    var b, c := line + ([LF, LF] + rest), [LF] + rest;
    EncodedSingleLine(DataLine(payload));
    LfEnds(line, c);
    assert b == line + ([LF] + c);
    DataLineAbsorbed(f, payload);
    LfEnds([], rest);
    assert [] + ([LF] + rest) == c;
    OneDataLine(f, payload);
    var p := Drained(f, rest);
    assert Drained(f.(data := f.data + [payload]), c).events == [SseEvent(None, payload, id)] + p.events;
    assert [] + ([SseEvent(None, payload, id)] + p.events) == [SseEvent(None, payload, id)] + p.events;
  }

  lemma {:induction false} PrintedDrained(payloads: seq<string>)
    requires forall p :: p in payloads ==> SingleLine(p)
    ensures Drained(FRESH, Printed(payloads)) == Parsed(FRESH, [], EventsOf(payloads))
  {
    if payloads != [] {
      FrameDrained(None, payloads[0], Printed(payloads[1..]));
      PrintedDrained(payloads[1..]);
    }
  }

  /** The client reads back exactly the payloads the server printed. */
  lemma PrintedMeans(payloads: seq<string>)
    requires forall p :: p in payloads ==> SingleLine(p)
    ensures Meaning(Printed(payloads)) == EventsOf(payloads)
  {
    PrintedDrained(payloads);
    DrainedIsFold(FRESH, Printed(payloads));
  }
}
