/** Server-Sent Events: what a byte stream means, and how the server prints its frames. */
module Sse {
  import opened Cursors
  import opened Utf8

  const LF: byte := 10
  const CR: byte := 13

  datatype SseEvent = SseEvent(event: Option<string>, data: string, id: Option<string>)

  /** What a parser remembers between lines. */
  datatype Fields = Fields(event: Option<string>, data: seq<string>, lastId: Option<string>)

  const FRESH := Fields(None, [], None)

  /** A parser's state and the events it has produced. */
  datatype Parsed = Parsed(fields: Fields, buf: seq<byte>, events: seq<SseEvent>)

  ghost function Listed(ev: Option<SseEvent>): seq<SseEvent> {
    if ev.Some? then [ev.value] else []
  }

  // ----- one line -----

  /** Index of the first colon, or the length of a line without one. */
  function ColonAt(line: string): (n: nat)
    ensures n <= |line|
    ensures n < |line| ==> line[n] == ':'
    ensures forall i :: 0 <= i < n ==> line[i] != ':'
  {
    if line == "" || line[0] == ':' then 0 else 1 + ColonAt(line[1..])
  }

  function FieldName(line: string): string {
    line[..ColonAt(line)]
  }

  /** What follows the colon, less one leading space. */
  function FieldValue(line: string): string {
    var n := ColonAt(line);
    if n == |line| then ""
    else if n + 1 < |line| && line[n + 1] == ' ' then line[n + 2..]
    else line[n + 1..]
  }

  function Joined(lines: seq<string>): string {
    if lines == [] then "" else if |lines| == 1 then lines[0] else lines[0] + "\n" + Joined(lines[1..])
  }

  /** A blank line: the pending event, when it has data, with the last id seen. */
  function Dispatched(f: Fields): (r: (Fields, seq<SseEvent>)) {
    (Fields(None, [], f.lastId), if f.data == [] then [] else [SseEvent(f.event, Joined(f.data), f.lastId)])
  }

  /** A line that is not blank. */
  function Absorbed(f: Fields, line: string): Fields {
    var value := FieldValue(line);
    if line != "" && line[0] == ':' then f
    else if FieldName(line) == "data" then f.(data := f.data + [value])
    else if FieldName(line) == "event" then f.(event := Some(value))
    else if FieldName(line) == "id" && '\0' !in value then f.(lastId := Some(value))
    else f
  }

  function WithoutCr(line: seq<byte>): seq<byte> {
    if line != [] && line[|line| - 1] == CR then line[..|line| - 1] else line
  }

  function AfterLine(f: Fields, line: seq<byte>): (Fields, seq<SseEvent>) {
    if line == [] then Dispatched(f) else (Absorbed(f, Decoded(line)), [])
  }

  // ----- a whole stream -----

  /** The stream with every line ending (LF, CRLF or a CR alone) written as one LF. */
  function Normalised(b: seq<byte>): seq<byte> {
    if b == [] then []
    else if b[0] != CR then [b[0]] + Normalised(b[1..])
    else if |b| > 1 && b[1] == LF then [LF] + Normalised(b[2..])
    else [LF] + Normalised(b[1..])
  }

  /** Index of the first LF, or the length of a stream without one. */
  function LfAt(b: seq<byte>): (n: nat)
    ensures n <= |b|
    ensures n < |b| ==> b[n] == LF
    ensures forall i :: 0 <= i < n ==> b[i] != LF
  {
    if b == [] || b[0] == LF then 0 else 1 + LfAt(b[1..])
  }

  lemma LfIs(b: seq<byte>, n: nat)
    requires n <= |b| && (n < |b| ==> b[n] == LF) && forall i :: 0 <= i < n ==> b[i] != LF
    ensures LfAt(b) == n
  {
  }

  /** Left fold over the lines; an unterminated last line counts, and the end dispatches. */
  function Fold(f: Fields, b: seq<byte>): seq<SseEvent>
    decreases |b|
  {
    var n := LfAt(b);
    var (g, events) := if n == |b| && n == 0 then (f, []) else AfterLine(f, b[..n]);
    if n == |b| then events + Dispatched(g).1 else events + Fold(g, b[n + 1..])
  }

  /** The events of a stream in the line model of section 9.2.6 of the WHATWG HTML Living Standard, except that a leading
      byte order mark, which that section strips, is part of the first line, as it is for both parsers. */
  function Meaning(b: seq<byte>): seq<SseEvent> {
    Fold(FRESH, Normalised(b))
  }

  function Flat<T>(chunks: seq<seq<T>>): seq<T> {
    if chunks == [] then [] else chunks[0] + Flat(chunks[1..])
  }

  lemma {:induction false} FlatSnoc<T>(chunks: seq<seq<T>>, last: seq<T>)
    ensures Flat(chunks + [last]) == Flat(chunks) + last
  {
    if chunks != [] {
      FlatSnoc(chunks[1..], last);
      assert (chunks + [last])[1..] == chunks[1..] + [last];
    }
  }

  // ----- the server's frames -----

  /** Payloads that fit one `data:` field. */
  predicate SingleLine(payload: string) {
    '\n' !in payload && '\r' !in payload
  }

  function DataLine(payload: string): string {
    "data: " + payload
  }

  function Printed(payloads: seq<string>): seq<byte> {
    if payloads == [] then [] else Encoded(DataLine(payloads[0])) + ([LF, LF] + Printed(payloads[1..]))
  }

  function EventsOf(payloads: seq<string>): seq<SseEvent> {
    if payloads == [] then [] else [SseEvent(None, payloads[0], None)] + EventsOf(payloads[1..])
  }

  /** Encoding neither adds nor hides line endings. */
  lemma {:induction false} EncodedSingleLine(s: string)
    requires SingleLine(s)
    ensures forall i :: 0 <= i < |Encoded(s)| ==> Encoded(s)[i] != LF && Encoded(s)[i] != CR
  {
    if s != "" {
      EncodedSingleLine(s[1..]);
    }
  }

  /** A printed data line is read as its payload, leading spaces included. */
  lemma DataLineAbsorbed(f: Fields, payload: string)
    ensures Encoded(DataLine(payload)) != []
    ensures AfterLine(f, Encoded(DataLine(payload))) == (f.(data := f.data + [payload]), [])
  {
    var line := DataLine(payload);
    DecodeEncoded(line);
    assert line[4] == ':';
    assert ColonAt(line) == 4;
    assert line[..4] == "data" && line[6..] == payload;
  }
}
