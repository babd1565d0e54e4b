/** Whole frames, with an event name, an id and any number of data lines, in any line ending: what both parsers make of
    them. */
module SseFrames {
  import opened Cursors
  import opened Utf8
  import opened Sse
  import ClientSse
  import FeedSse

  // ----- single lines, in the words of section 9.2.6 of the WHATWG HTML Living Standard -----

  lemma ColonIs(line: string, n: nat)
    requires n <= |line| && (n < |line| ==> line[n] == ':') && forall i :: 0 <= i < n ==> line[i] != ':'
    ensures ColonAt(line) == n
  {
  }

  /** A field with its value after a colon, with or without one space. */
  lemma ValueOf(name: string, value: string)
    requires ':' !in name
    ensures FieldName(name + ": " + value) == name && FieldValue(name + ": " + value) == value
    ensures FieldName(name + ":" + value) == name
    ensures value == "" || value[0] != ' ' ==> FieldValue(name + ":" + value) == value
    ensures FieldName(name) == name && FieldValue(name) == ""
  {
    var a, b := name + ": " + value, name + ":" + value;
    ColonIs(a, |name|);
    ColonIs(b, |name|);
    ColonIs(name, |name|);
    assert a[..|name|] == name && a[|name| + 1] == ' ' && a[|name| + 2..] == value;
    assert b[..|name|] == name && b[|name| + 1..] == value;
  }

  /** What each field does: data adds a line, event and id are taken over, an id with NUL is not; a comment and any other
      field do nothing. */
  lemma FieldDoes(f: Fields, value: string)
    ensures Absorbed(f, "data: " + value) == f.(data := f.data + [value])
    ensures Absorbed(f, "event: " + value) == f.(event := Some(value))
    ensures '\0' !in value ==> Absorbed(f, "id: " + value) == f.(lastId := Some(value))
    ensures '\0' in value ==> Absorbed(f, "id: " + value) == f
    ensures Absorbed(f, ":" + value) == f
    ensures Absorbed(f, "data") == f.(data := f.data + [""])
    ensures FeedSse.FeedAbsorbed(f, "data: " + value) == f.(data := f.data + [value])
    ensures FeedSse.FeedAbsorbed(f, "event: " + value) == f.(event := Some(value))
    ensures FeedSse.FeedAbsorbed(f, "id: " + value) == f.(lastId := Some(value))
    ensures FeedSse.FeedAbsorbed(f, ":" + value) == f
  {
    hide ColonAt, FieldName, FieldValue;
    assert "data"[0] == 'd' && "event"[0] == 'e' && "id"[0] == 'i';
    ValueOf("data", value);
    ValueOf("event", value);
    ValueOf("id", value);
    assert "data: " + value == "data" + ": " + value;
    assert "event: " + value == "event" + ": " + value;
    assert "id: " + value == "id" + ": " + value;
    assert ("data: " + value)[0] == 'd' && ("event: " + value)[0] == 'e' && ("id: " + value)[0] == 'i';
  }

  lemma OtherFieldsDoNothing(f: Fields, name: string, value: string)
    requires ':' !in name && name != "data" && name != "event" && name != "id" && name != ""
    ensures Absorbed(f, name + ": " + value) == f && Absorbed(f, name) == f
    ensures FeedSse.FeedAbsorbed(f, name + ": " + value) == f && FeedSse.FeedAbsorbed(f, name) == f
  {
    hide ColonAt, FieldName, FieldValue;
    ValueOf(name, value);
    assert (name + ": " + value)[0] == name[0];
  }

  // ----- frames -----

  datatype Frame = Frame(event: Option<string>, id: Option<string>, data: string)

  /** The lines of a text, at least one. */
  function SplitLf(s: string): (lines: seq<string>)
    ensures lines != []
  {
    if s == "" then [""]
    else
      var rest := SplitLf(s[1..]);
      if s[0] == '\n' then [""] + rest else [[s[0]] + rest[0]] + rest[1..]
  }

  lemma {:induction false} JoinedSplit(s: string)
    ensures Joined(SplitLf(s)) == s
    ensures '\r' !in s ==> forall line :: line in SplitLf(s) ==> SingleLine(line)
  {
    if s != "" {
      JoinedSplit(s[1..]);
      var rest := SplitLf(s[1..]);
      assert s == [s[0]] + s[1..];
      if s[0] == '\n' {
        assert ([""] + rest)[1..] == rest;
        assert "" + "\n" + Joined(rest) == "\n" + Joined(rest);
      } else {
        var lines := [[s[0]] + rest[0]] + rest[1..];
        assert lines[1..] == rest[1..];
        JoinedHead(s[0], rest);
        if '\r' !in s {
          forall line | line in lines ensures SingleLine(line) {
            assert rest[0] in rest;
            assert line in rest[1..] ==> line in rest;
          }
        }
      }
    }
  }

  lemma JoinedHead(c: char, rest: seq<string>)
    requires rest != []
    ensures Joined([[c] + rest[0]] + rest[1..]) == [c] + Joined(rest)
  {
    var lines := [[c] + rest[0]] + rest[1..];
    assert lines[1..] == rest[1..];
    if |rest| > 1 {
      assert [c] + rest[0] + "\n" + Joined(rest[1..]) == [c] + (rest[0] + "\n" + Joined(rest[1..]));
    }
  }

  predicate Printable(f: Frame) {
    && (f.event.Some? ==> SingleLine(f.event.value))
    && (f.id.Some? ==> SingleLine(f.id.value) && '\0' !in f.id.value)
    && '\r' !in f.data
  }

  function DataLines(lines: seq<string>): seq<string> {
    if lines == [] then [] else ["data: " + lines[0]] + DataLines(lines[1..])
  }

  /** The frame's lines, the blank one that ends it included. */
  function LinesOf(f: Frame): seq<string> {
    (if f.event.Some? then ["event: " + f.event.value] else []) +
    ((if f.id.Some? then ["id: " + f.id.value] else []) + (DataLines(SplitLf(f.data)) + [""]))
  }

  function AllLines(frames: seq<Frame>): seq<string> {
    if frames == [] then [] else LinesOf(frames[0]) + AllLines(frames[1..])
  }

  function PrintLines(lines: seq<string>, ending: seq<byte>): seq<byte> {
    if lines == [] then [] else Encoded(lines[0]) + (ending + PrintLines(lines[1..], ending))
  }

  predicate LineEnding(ending: seq<byte>) {
    ending == [LF] || ending == [CR, LF] || ending == [CR]
  }

  /** What is to be read: each frame's own event name and data, and the last id given so far. */
  function ReadAs(frames: seq<Frame>, lastId: Option<string>): seq<SseEvent> {
    if frames == [] then []
    else
      var id := if frames[0].id.Some? then frames[0].id else lastId;
      [SseEvent(frames[0].event, frames[0].data, id)] + ReadAs(frames[1..], id)
  }

  // ----- line by line -----

  function Folded(f: Fields, lines: seq<string>): (Fields, seq<SseEvent>)
    decreases |lines|
  {
    if lines == [] then (f, [])
    else
      var (g, events) := if lines[0] == "" then Dispatched(f) else (Absorbed(f, lines[0]), []);
      var (h, more) := Folded(g, lines[1..]);
      (h, events + more)
  }

  lemma {:induction false} FoldedInTwo(f: Fields, a: seq<string>, b: seq<string>)
    ensures var (g, events) := Folded(f, a); var (h, more) := Folded(g, b);
      Folded(f, a + b) == (h, events + more)
    decreases |a|
  {
    hide Absorbed, Dispatched;
    if a == [] {
      assert a + b == b;
      assert [] + Folded(f, b).1 == Folded(f, b).1;
    } else {
      assert (a + b)[1..] == a[1..] + b;
      var (g, events) := if a[0] == "" then Dispatched(f) else (Absorbed(f, a[0]), []);
      FoldedInTwo(g, a[1..], b);
      var (g1, e1) := Folded(g, a[1..]);
      Chain(events, e1, Folded(g1, b).1);
    }
  }

  lemma FoldStep(f: Fields, line: string, rest: seq<string>)
    ensures var (g, events) := if line == "" then Dispatched(f) else (Absorbed(f, line), []);
      var (h, more) := Folded(g, rest);
      Folded(f, [line] + rest) == (h, events + more)
  {
    hide Absorbed, Dispatched;
    assert ([line] + rest)[1..] == rest;
  }

  lemma {:induction false} DataFolded(f: Fields, lines: seq<string>)
    ensures Folded(f, DataLines(lines)) == (f.(data := f.data + lines), [])
    decreases |lines|
  {
    hide Absorbed, Dispatched;
    if lines == [] {
      assert f.data + lines == f.data;
    } else {
      FieldDoes(f, lines[0]);
      assert ("data: " + lines[0])[0] == 'd';
      FoldStep(f, "data: " + lines[0], DataLines(lines[1..]));
      DataFolded(f.(data := f.data + [lines[0]]), lines[1..]);
      assert f.data + [lines[0]] + lines[1..] == f.data + lines;
      var none: seq<SseEvent> := [];
      assert none + none == none;
    }
  }

  lemma OneFolded(f: Fields, line: string)
    requires line != ""
    ensures Folded(f, [line]) == (Absorbed(f, line), [])
  {
    hide Absorbed, Dispatched;
    FoldStep(f, line, []);
    NothingFolded(Absorbed(f, line));
    assert [line] + [] == [line];
    var none: seq<SseEvent> := [];
    assert none + none == none;
  }

  lemma BlankFolded(f: Fields)
    ensures Folded(f, [""]) == Dispatched(f)
  {
    hide Dispatched;
    FoldStep(f, "", []);
    NothingFolded(Dispatched(f).0);
    assert [""] + [] == [""];
    assert Dispatched(f).1 + [] == Dispatched(f).1;
  }

  /** One frame is one event; its name and data do not outlast it, its id does. */
  lemma FrameFolded(lastId: Option<string>, x: Frame)
    requires Printable(x)
    ensures var id := if x.id.Some? then x.id else lastId;
      Folded(Fields(None, [], lastId), LinesOf(x)) == (Fields(None, [], id), [SseEvent(x.event, x.data, id)])
  {
    hide Absorbed, Folded, SplitLf, DataLines;
    var f0 := Fields(None, [], lastId);
    var a := if x.event.Some? then ["event: " + x.event.value] else [];
    var b := if x.id.Some? then ["id: " + x.id.value] else [];
    var c, d := DataLines(SplitLf(x.data)), [""];
    var f1 := f0.(event := x.event);
    var f2 := f1.(lastId := if x.id.Some? then x.id else lastId);
    var f3 := f2.(data := SplitLf(x.data));
    NothingFolded(f0);
    NothingFolded(f1);
    if x.event.Some? {
      FieldDoes(f0, x.event.value);
      OneFolded(f0, "event: " + x.event.value);
    }
    assert Folded(f0, a) == (f1, []);
    if x.id.Some? {
      FieldDoes(f1, x.id.value);
      OneFolded(f1, "id: " + x.id.value);
    }
    assert Folded(f1, b) == (f2, []);
    DataFolded(f2, SplitLf(x.data));
    assert f2.data + SplitLf(x.data) == SplitLf(x.data);
    assert Folded(f2, c) == (f3, []);
    BlankFolded(f3);
    JoinedSplit(x.data);
    FoldedInTwo(f2, c, d);
    FoldedInTwo(f1, b, c + d);
    FoldedInTwo(f0, a, b + (c + d));
    var e := Dispatched(f3).1;
    assert [] + e == e;
  }

  lemma NothingFolded(f: Fields)
    ensures Folded(f, []) == (f, [])
  {
  }

  lemma {:induction false} FramesFolded(lastId: Option<string>, frames: seq<Frame>)
    requires forall x :: x in frames ==> Printable(x)
    ensures var r := Folded(Fields(None, [], lastId), AllLines(frames));
      r.1 == ReadAs(frames, lastId) && r.0.data == [] && r.0.event == None
    decreases |frames|
  {
    hide LinesOf, Absorbed, Dispatched, Printable;
    if frames == [] {
      NothingFolded(Fields(None, [], lastId));
    } else {
      var id := if frames[0].id.Some? then frames[0].id else lastId;
      FrameFolded(lastId, frames[0]);
      FramesFolded(id, frames[1..]);
      FoldedInTwo(Fields(None, [], lastId), LinesOf(frames[0]), AllLines(frames[1..]));
    }
  }

  // ----- as bytes -----

  ghost predicate AllSingle(lines: seq<string>) {
    forall i :: 0 <= i < |lines| ==> SingleLine(lines[i])
  }

  lemma LinesAreSingle(x: Frame)
    requires Printable(x)
    ensures AllSingle(LinesOf(x))
  {
    JoinedSplit(x.data);
    DataLinesSingle(SplitLf(x.data));
    hide SplitLf, DataLines;
  }

  lemma {:induction false} DataLinesSingle(lines: seq<string>)
    requires forall line :: line in lines ==> SingleLine(line)
    ensures AllSingle(DataLines(lines))
  {
    if lines != [] {
      DataLinesSingle(lines[1..]);
      assert lines[0] in lines;
    }
  }

  lemma {:induction false} AllLinesSingle(frames: seq<Frame>)
    requires forall x :: x in frames ==> Printable(x)
    ensures AllSingle(AllLines(frames))
  {
    hide LinesOf, Printable;
    if frames != [] {
      LinesAreSingle(frames[0]);
      AllLinesSingle(frames[1..]);
    }
  }

  /** Whatever the line ending, it is one line ending. */
  lemma {:induction false} EndingNormalised(lines: seq<string>, ending: seq<byte>)
    requires AllSingle(lines) && LineEnding(ending)
    ensures Normalised(PrintLines(lines, ending)) == PrintLines(lines, [LF])
    ensures PrintLines(lines, ending) != [] && ending != [LF] ==> PrintLines(lines, ending)[0] != LF
  {
    hide Encoded, Normalised;
    if lines == [] {
      NothingNormalised();
    } else {
      var line, rest := Encoded(lines[0]), PrintLines(lines[1..], ending);
      EncodedSingleLine(lines[0]);
      EndingNormalised(lines[1..], ending);
      var b := line + (ending + rest);
      assert forall i :: 0 <= i < |line| ==> b[i] == line[i];
      ClientSse.NormalisedLine(b, |line|);
      assert b[..|line|] == line && b[|line|..] == ending + rest;
      EndingDropped(ending, rest);
    }
  }

  lemma NothingNormalised()
    ensures Normalised([]) == []
  {
  }

  lemma EndingDropped(ending: seq<byte>, rest: seq<byte>)
    requires LineEnding(ending) && (ending == [CR] && rest != [] ==> rest[0] != LF)
    ensures Normalised(ending + rest) == [LF] + Normalised(rest)
  {
    var b := ending + rest;
    assert b[|ending|..] == rest;
  }

  lemma {:induction false} PrintedFolded(f: Fields, lines: seq<string>)
    requires AllSingle(lines)
    ensures var (g, events) := Folded(f, lines);
      Fold(f, PrintLines(lines, [LF])) == events + Dispatched(g).1
    decreases |lines|
  {
    hide Fold, Absorbed, Dispatched, Encoded, Decoded;
    if lines == [] {
      ClientSse.FoldEnd(f);
      assert [] + Dispatched(f).1 == Dispatched(f).1;
    } else {
      var line, rest := Encoded(lines[0]), PrintLines(lines[1..], [LF]);
      EncodedSingleLine(lines[0]);
      assert line + ([LF] + rest) == line + [LF] + rest;
      ClientSse.FoldLine(f, line, rest);
      LineIs(f, lines[0]);
      var (g, events) := AfterLine(f, line);
      PrintedFolded(g, lines[1..]);
      var (h, more) := Folded(g, lines[1..]);
      Chain(events, more, Dispatched(h).1);
    }
  }

  lemma LineIs(f: Fields, line: string)
    ensures AfterLine(f, Encoded(line)) == if line == "" then Dispatched(f) else (Absorbed(f, line), [])
  {
    hide Absorbed, Dispatched, Decoded;
    DecodeEncoded(line);
    if line != "" {
      assert Encoded(line) != [];
    }
  }

  /** Frames printed with any line ending are read back by the client, in whatever chunks they arrive: each frame's name
      and data, and the last id given. */
  lemma FramesReadBack(frames: seq<Frame>, ending: seq<byte>)
    requires LineEnding(ending) && forall x :: x in frames ==> Printable(x)
    ensures Meaning(PrintLines(AllLines(frames), ending)) == ReadAs(frames, None)
  {
    hide Fold, Normalised, Absorbed, AllLines, PrintLines, Folded;
    AllLinesSingle(frames);
    EndingNormalised(AllLines(frames), ending);
    PrintedFolded(FRESH, AllLines(frames));
    FramesFolded(None, frames);
    assert ReadAs(frames, None) + [] == ReadAs(frames, None);
  }

  /** A frame that the end of the stream cuts off after its data, or even inside the last line ending, is still read. */
  lemma CutOffStillRead(payload: string)
    requires SingleLine(payload)
    ensures Meaning(Encoded("data: " + payload)) == [SseEvent(None, payload, None)]
    ensures Meaning(Encoded("data: " + payload) + [CR]) == [SseEvent(None, payload, None)]
  {
    hide Fold, Normalised, Absorbed, Encoded, Decoded;
    var line := "data: " + payload;
    var b := Encoded(line);
    EncodedSingleLine(line);
    LineIs(FRESH, line);
    FieldDoes(FRESH, payload);
    assert FRESH.data + [payload] == [payload];
    var f := FRESH.(data := [payload]);
    assert AfterLine(FRESH, b) == (f, []);
    ClientSse.NormalisedLine(b, |b|);
    assert b[|b|..] == [] && b[..|b|] == b;
    NothingNormalised();
    assert Normalised(b) == b + [] == b;
    ClientSse.FoldLast(FRESH, b);
    assert [] + Dispatched(f).1 == Dispatched(f).1;
    var c := b + [CR];
    assert c[..|b|] == b && c[|b|..] == [CR] + [];
    assert forall i :: 0 <= i < |b| ==> c[i] == b[i];
    ClientSse.NormalisedLine(c, |b|);
    EndingDropped([CR], []);
    assert Normalised(c) == b + [LF] + [];
    ClientSse.FoldLine(FRESH, b, []);
    ClientSse.FoldEnd(f);
  }
}
