/** The `events/stream` session: probe, replay one event at a time, live tail, and re-sync after lag. */
module Stream {
  import opened Cursors
  import opened Log
  import opened Reading
  import opened Buffer

  datatype Frame =
    | Active(cursor: string, truncated: bool)
    | EventFrame(occ: EventOccurrence)
    | Heartbeat(cursor: string)
    | Closed

  /** What a frame stands for, by position in the log. */
  datatype Mark =
    | Opened(pos: nat, truncated: bool)
    | Sent(seqNo: nat, pos: nat)
    | Beat(pos: nat)
    | Ended(pos: nat)

  /** A session's history: where it started, its frames, and the matching events it passed over without sending —
      `silent` in the replay loop, `announced` in a re-sync. */
  datatype History = History(origin: nat, marks: seq<Mark>, silent: set<nat>, announced: set<nat>)

  ghost predicate FrameIs(r: Ring, epoch: nat, name: string, f: Frame, m: Mark) {
    match m
    case Opened(pos, truncated) => f == Active(CursorStr(epoch, pos), truncated)
    case Sent(s, pos) => r.Has(s) && f == EventFrame(OccurrenceOf(r, name, s).(cursor := Some(CursorStr(epoch, pos))))
    case Beat(pos) => f == Heartbeat(CursorStr(epoch, pos))
    case Ended(_) => f == Closed
  }

  ghost predicate WasSent(marks: seq<Mark>, s: nat) {
    exists k :: 0 <= k < |marks| && marks[k].Sent? && marks[k].seqNo == s
  }

  ghost predicate Accounted(h: History, k: nat, s: nat)
    requires k <= |h.marks|
  {
    WasSent(h.marks[..k], s) || s in h.silent || s in h.announced
  }

  /** Every matching event after the origin and up to `pos` is among the first `k` frames or was passed over. */
  ghost predicate Covered(r: Ring, q: Query, h: History, k: nat, pos: nat)
    requires k <= |h.marks|
  {
    forall s :: h.origin < s <= pos && r.Matching(q, s) ==> Accounted(h, k, s)
  }

  ghost predicate Ordered(marks: seq<Mark>) {
    && (forall j, k :: 0 <= j < k < |marks| ==> marks[j].pos <= marks[k].pos)
    && (forall j, k :: 0 <= j < k < |marks| && marks[k].Sent? ==> marks[j].pos < marks[k].seqNo)
  }

  /** The session invariant at position `p`. */
  ghost predicate Faithful(r: Ring, q: Query, h: History, p: nat) {
    && h.origin <= p <= r.Head()
    && Ordered(h.marks)
    && (forall k :: 0 <= k < |h.marks| ==> h.marks[k].pos <= p)
    && (forall k :: 0 <= k < |h.marks| && h.marks[k].Sent? ==>
          h.origin < h.marks[k].seqNo <= h.marks[k].pos && r.Matching(q, h.marks[k].seqNo))
    && (forall k :: 0 <= k < |h.marks| ==> Covered(r, q, h, k + 1, h.marks[k].pos))
    && Covered(r, q, h, |h.marks|, p)
    && (forall s :: s in h.silent + h.announced ==> h.origin < s <= p && r.Matching(q, s) && !WasSent(h.marks, s))
  }

  lemma FaithfulStable(r: Ring, r': Ring, q: Query, h: History, p: nat)
    requires Evolves(r, r') && Faithful(r, q, h, p)
    ensures Faithful(r', q, h, p)
  {
    assert forall s: nat :: s <= r.Head() ==> r'.Matching(q, s) == r.Matching(q, s);
    forall k | 0 <= k < |h.marks| ensures Covered(r', q, h, k + 1, h.marks[k].pos) {
      assert Covered(r, q, h, k + 1, h.marks[k].pos);
    }
  }

  /** The matching events in `(lo, hi]` that were not picked. */
  ghost function Passed(r: Ring, q: Query, lo: nat, hi: nat, picked: seq<nat>): set<nat> {
    set s | lo < s <= hi && r.Matching(q, s) && s !in picked
  }

  /** Moves on to position `pos'`, sending at most one event, and accounts for what is passed over. */
  ghost function Advance(r: Ring, q: Query, h: History, p: nat, pos': nat, picked: seq<nat>, announce: bool): History
    requires |picked| <= 1
  {
    var passed := Passed(r, q, p, pos', picked);
    var h1 := if announce then h.(announced := h.announced + passed) else h.(silent := h.silent + passed);
    if picked == [] then h1 else h1.(marks := h.marks + [Sent(picked[0], pos')])
  }

  lemma MoreMarks(marks: seq<Mark>, m: Mark, s: nat)
    ensures WasSent(marks, s) ==> WasSent(marks + [m], s)
    ensures WasSent(marks + [m], s) ==> WasSent(marks, s) || (m.Sent? && m.seqNo == s)
    ensures m.Sent? && m.seqNo == s ==> WasSent(marks + [m], s)
  {
    var all := marks + [m];
    if WasSent(marks, s) {
      var k :| 0 <= k < |marks| && marks[k].Sent? && marks[k].seqNo == s;
      assert all[k] == marks[k];
    }
    assert all[|marks|] == m;
  }

  /** Growing the passed-over sets keeps everything that was accounted for accounted for. */
  lemma WiderSets(r: Ring, q: Query, h: History, h': History, p: nat)
    requires Faithful(r, q, h, p)
    requires h'.origin == h.origin && h'.marks == h.marks && h.silent <= h'.silent && h.announced <= h'.announced
    ensures forall k :: 0 <= k < |h.marks| ==> Covered(r, q, h', k + 1, h.marks[k].pos)
    ensures Covered(r, q, h', |h.marks|, p)
  {
    forall k | 0 <= k < |h.marks| ensures Covered(r, q, h', k + 1, h.marks[k].pos) {
      assert Covered(r, q, h, k + 1, h.marks[k].pos);
      forall s | h'.origin < s <= h.marks[k].pos && r.Matching(q, s) ensures Accounted(h', k + 1, s) {
        assert Accounted(h, k + 1, s);
      }
    }
    forall s | h'.origin < s <= p && r.Matching(q, s) ensures Accounted(h', |h.marks|, s) {
      assert Accounted(h, |h.marks|, s);
    }
  }

  /** Passing over a span without sending anything keeps the invariant. */
  lemma PassOver(r: Ring, q: Query, h: History, p: nat, pos': nat, announce: bool)
    requires Faithful(r, q, h, p) && p <= pos' <= r.Head()
    ensures Faithful(r, q, Advance(r, q, h, p, pos', [], announce), pos')
  {
    var h' := Advance(r, q, h, p, pos', [], announce);
    WiderSets(r, q, h, h', p);
    forall s | h'.origin < s <= pos' && r.Matching(q, s) ensures Accounted(h', |h'.marks|, s) {
      if s <= p {
        assert Accounted(h', |h'.marks|, s);
      } else {
        assert s in Passed(r, q, p, pos', []);
      }
    }
    forall s | s in h'.silent + h'.announced ensures h'.origin < s <= pos' && r.Matching(q, s) && !WasSent(h'.marks, s) {
      if s in h.silent + h.announced {
      } else {
        assert s in Passed(r, q, p, pos', []);
      }
    }
  }

  /** Adding a frame that carries no event, at the current position, keeps the invariant. */
  lemma AddFrame(r: Ring, q: Query, h: History, p: nat, m: Mark)
    requires Faithful(r, q, h, p) && m.pos == p && !m.Sent?
    ensures Faithful(r, q, h.(marks := h.marks + [m]), p)
  {
    var h' := h.(marks := h.marks + [m]);
    forall s ensures WasSent(h'.marks, s) <==> WasSent(h.marks, s) { MoreMarks(h.marks, m, s); }
    AddFrameCovers(r, q, h, p, m);
  }

  lemma AddFrameCovers(r: Ring, q: Query, h: History, p: nat, m: Mark)
    requires m.pos == p
    requires forall k :: 0 <= k < |h.marks| ==> Covered(r, q, h, k + 1, h.marks[k].pos)
    requires Covered(r, q, h, |h.marks|, p)
    ensures var h' := h.(marks := h.marks + [m]);
            (forall k :: 0 <= k < |h'.marks| ==> Covered(r, q, h', k + 1, h'.marks[k].pos)) && Covered(r, q, h', |h'.marks|, p)
  {
    var h' := h.(marks := h.marks + [m]);
    forall s ensures WasSent(h.marks, s) ==> WasSent(h'.marks, s) { MoreMarks(h.marks, m, s); }
    CoveredAtEnd(r, q, h, h', p);
    forall k | 0 <= k < |h.marks| ensures Covered(r, q, h', k + 1, h'.marks[k].pos) {
      assert h'.marks[..k + 1] == h.marks[..k + 1];
      forall s | h'.origin < s <= h'.marks[k].pos && r.Matching(q, s) ensures Accounted(h', k + 1, s) {
        assert Covered(r, q, h, k + 1, h.marks[k].pos) && Accounted(h, k + 1, s);
      }
    }
  }

  lemma CoveredAtEnd(r: Ring, q: Query, h: History, h': History, p: nat)
    requires Covered(r, q, h, |h.marks|, p)
    requires h'.origin == h.origin && h'.silent == h.silent && h'.announced == h.announced
    requires forall s :: WasSent(h.marks, s) ==> WasSent(h'.marks, s)
    ensures Covered(r, q, h', |h'.marks|, p)
  {
    assert h'.marks[..|h'.marks|] == h'.marks && h.marks[..|h.marks|] == h.marks;
    forall s | h'.origin < s <= p && r.Matching(q, s) ensures Accounted(h', |h'.marks|, s) {
      assert Accounted(h, |h.marks|, s);
    }
  }

  /** Sending event `x`, the only one picked in `(p, pos']`, and passing over the rest keeps the invariant. */
  lemma SendOne(r: Ring, q: Query, h: History, p: nat, pos': nat, x: nat, announce: bool)
    requires Faithful(r, q, h, p) && p < x <= pos' <= r.Head() && r.Matching(q, x)
    ensures Faithful(r, q, Advance(r, q, h, p, pos', [x], announce), pos')
  {
    hide Covered, WasSent, Ordered;
    SendCovers(r, q, h, p, pos', x, announce);
    SendLoses(r, q, h, p, pos', x, announce);
    SendOrders(r, q, h, p, pos', x);
  }

  lemma SendOrders(r: Ring, q: Query, h: History, p: nat, pos': nat, x: nat)
    requires Ordered(h.marks) && p < x <= pos'
    requires forall k :: 0 <= k < |h.marks| ==> h.marks[k].pos <= p
    ensures Ordered(h.marks + [Sent(x, pos')])
  {
  }

  lemma SendCovers(r: Ring, q: Query, h: History, p: nat, pos': nat, x: nat, announce: bool)
    requires Faithful(r, q, h, p) && p < x <= pos' <= r.Head() && r.Matching(q, x)
    ensures var h' := Advance(r, q, h, p, pos', [x], announce);
            (forall k :: 0 <= k < |h'.marks| ==> Covered(r, q, h', k + 1, h'.marks[k].pos)) && Covered(r, q, h', |h'.marks|, pos')
  {
    hide Covered, Ordered, WasSent;
    var h' := Advance(r, q, h, p, pos', [x], announce);
    SendCoversEnd(r, q, h, p, pos', x, announce);
    forall k | 0 <= k < |h.marks| ensures Covered(r, q, h', k + 1, h.marks[k].pos) {
      SendCoversPrefix(r, q, h, p, pos', x, announce, k);
    }
  }

  lemma SendCoversEnd(r: Ring, q: Query, h: History, p: nat, pos': nat, x: nat, announce: bool)
    requires Covered(r, q, h, |h.marks|, p) && p < x <= pos' <= r.Head() && r.Matching(q, x)
    ensures var h' := Advance(r, q, h, p, pos', [x], announce); Covered(r, q, h', |h'.marks|, pos')
  {
    var h' := Advance(r, q, h, p, pos', [x], announce);
    assert h'.marks[..|h'.marks|] == h'.marks && h.marks[..|h.marks|] == h.marks;
    forall s | h'.origin < s <= pos' && r.Matching(q, s) ensures Accounted(h', |h'.marks|, s) {
      MoreMarks(h.marks, Sent(x, pos'), s);
      if s <= p {
        assert Accounted(h, |h.marks|, s);
      } else if s != x {
        assert s in Passed(r, q, p, pos', [x]);
      }
    }
  }

  lemma SendCoversPrefix(r: Ring, q: Query, h: History, p: nat, pos': nat, x: nat, announce: bool, k: nat)
    requires k < |h.marks| && Covered(r, q, h, k + 1, h.marks[k].pos)
    ensures Covered(r, q, Advance(r, q, h, p, pos', [x], announce), k + 1, h.marks[k].pos)
  {
    var h' := Advance(r, q, h, p, pos', [x], announce);
    assert h'.marks[..k + 1] == h.marks[..k + 1];
    forall s | h'.origin < s <= h.marks[k].pos && r.Matching(q, s) ensures Accounted(h', k + 1, s) {
      assert Accounted(h, k + 1, s);
    }
  }

  lemma SendLoses(r: Ring, q: Query, h: History, p: nat, pos': nat, x: nat, announce: bool)
    requires Faithful(r, q, h, p) && p < x <= pos' <= r.Head() && r.Matching(q, x)
    ensures var h' := Advance(r, q, h, p, pos', [x], announce);
            forall s :: s in h'.silent + h'.announced ==> h'.origin < s <= pos' && r.Matching(q, s) && !WasSent(h'.marks, s)
  {
    var h' := Advance(r, q, h, p, pos', [x], announce);
    forall s | s in h'.silent + h'.announced
      ensures h'.origin < s <= pos' && r.Matching(q, s) && !WasSent(h'.marks, s)
    {
      MoreMarks(h.marks, Sent(x, pos'), s);
      if s !in h.silent + h.announced {
        assert s in Passed(r, q, p, pos', [x]);
      }
    }
  }

  /** The seqs sent, in frame order. */
  function SentSeqs(marks: seq<Mark>): seq<nat> {
    if marks == [] then []
    else SentSeqs(marks[..|marks| - 1]) + (if marks[|marks| - 1].Sent? then [marks[|marks| - 1].seqNo] else [])
  }

  lemma {:induction false} SentMembers(marks: seq<Mark>)
    requires Ordered(marks) && forall k :: 0 <= k < |marks| && marks[k].Sent? ==> marks[k].seqNo <= marks[k].pos
    ensures forall s :: s in SentSeqs(marks) <==> WasSent(marks, s)
    ensures StrictlyIncreasing(SentSeqs(marks))
  {
    if marks != [] {
      var front, last := marks[..|marks| - 1], marks[|marks| - 1];
      SentMembers(front);
      assert front + [last] == marks;
      forall s ensures s in SentSeqs(marks) <==> WasSent(marks, s) {
        MoreMarks(front, last, s);
      }
      if last.Sent? {
        var done := SentSeqs(front);
        forall i | 0 <= i < |done| ensures done[i] < last.seqNo {
          assert WasSent(front, done[i]);
        }
      }
    }
  }

  /** On every session, with no hypothesis: sent seqs strictly increase, and up to the current position they are the
      filtered log less what was passed over. */
  lemma SentExactly(r: Ring, q: Query, h: History, p: nat)
    requires Faithful(r, q, h, p)
    ensures StrictlyIncreasing(SentSeqs(h.marks))
    ensures forall s :: s in SentSeqs(h.marks) <==> h.origin < s <= p && r.Matching(q, s) && s !in h.silent && s !in h.announced
  {
    SentMembers(h.marks);
    assert h.marks[..|h.marks|] == h.marks;
    forall s | h.origin < s <= p && r.Matching(q, s) && s !in h.silent && s !in h.announced
      ensures s in SentSeqs(h.marks)
    {
      assert Accounted(h, |h.marks|, s);
    }
  }

  lemma {:induction false} SameIncreasing(a: seq<nat>, b: seq<nat>)
    requires StrictlyIncreasing(a) && StrictlyIncreasing(b)
    requires forall s :: s in a <==> s in b
    ensures a == b
  {
    assert b != [] ==> b[0] in b;
    if a != [] {
      assert a[0] in a;
      assert b[0] in b;
      var i :| 0 <= i < |b| && b[i] == a[0];
      var j :| 0 <= j < |a| && a[j] == b[0];
      assert a[0] == b[0];
      forall s ensures s in a[1..] <==> s in b[1..] {
        if s in a[1..] {
          var k :| 0 <= k < |a| - 1 && a[1..][k] == s;
          assert a[k + 1] == s && s in b && s != b[0];
        }
        if s in b[1..] {
          var k :| 0 <= k < |b| - 1 && b[1..][k] == s;
          assert b[k + 1] == s && s in a && s != a[0];
        }
      }
      SameIncreasing(a[1..], b[1..]);
    }
  }

  /** Stitching is exact: when nothing was passed over, the event frames are the filtered log from the probe
      position to the current one, each event once and in order. */
  lemma StitchingExact(r: Ring, q: Query, h: History, p: nat)
    requires Faithful(r, q, h, p) && h.silent == {} && h.announced == {}
    ensures SentSeqs(h.marks) == Select(r, None, q, h.origin, p)
  {
    SentExactly(r, q, h, p);
    SelectMembers(r, None, q, h.origin, p);
    SameIncreasing(SentSeqs(h.marks), Select(r, None, q, h.origin, p));
  }

  /** A one-event read from an own-epoch position: what it moves over, and when it can pass something over. */
  lemma SingleRead(r: Ring, epoch: nat, p: nat, floor: Option<int>, q: Query, o: Outcome)
    requires r.Valid() && epoch < U64_LIMIT && p <= r.Head()
    requires Reads(r, epoch, Some(CursorStr(epoch, p)), floor, Some(1), q, o)
    ensures p <= o.pos <= r.Head() && |o.picked| <= 1
    ensures forall x :: x in o.picked ==> p < x <= o.pos && r.Matching(q, x)
    ensures !o.truncated ==> Passed(r, q, p, o.pos, o.picked) == {}
    ensures o.picked == [] ==> !o.hasMore
    ensures !o.hasMore ==> o.pos == r.Head()
    ensures Passed(r, q, p, o.pos, o.picked) == set s | p < s <= o.pos && r.Matching(q, s) && (s <= r.evicted || r.Below(floor, s))
  {
    CursorRoundTrip(epoch, p);
    var start := StartAfter(r, epoch, CursorStr(epoch, p)).0;
    SelectMembers(r, floor, q, start, o.pos);
  }

  /** A probe (cap 0) from an own-epoch position moves over non-matching events only, unless it is flagged. */
  lemma ProbeSkipsNothing(r: Ring, epoch: nat, s: nat, floor: Option<int>, q: Query, o: Outcome)
    requires r.Valid() && epoch < U64_LIMIT && s <= r.Head()
    requires Reads(r, epoch, Some(CursorStr(epoch, s)), floor, Some(0), q, o)
    ensures s <= o.pos
    ensures !o.truncated ==> forall t :: s < t <= o.pos ==> !r.Matching(q, t)
  {
    CursorRoundTrip(epoch, s);
    SelectMembers(r, floor, q, s, o.pos);
    if !o.truncated {
      forall t | s < t <= o.pos ensures !r.Matching(q, t) {
        assert t !in o.picked && !r.Below(floor, t);
      }
    }
  }

  /** Where a one-event read ends, seen from the ring: it gets past an event cut off by the floor exactly when fewer
      than two wanted events come before that event. */
  lemma ReachesIff(r: Ring, start: nat, gap: bool, floor: Option<int>, q: Query, o: Outcome, s: nat)
    requires ScanFrom(r, start, gap, floor, Some(1), q, o) && start < s && r.Below(floor, s)
    ensures s <= o.pos <==> |Select(r, floor, q, start, s - 1)| < 2
  {
    if s <= o.pos {
      SelectSplit(r, floor, q, start, s - 1, o.pos);
    } else {
      FurtherPicksMore(r, floor, q, start, o.pos, s - 1);
    }
  }

  /** A one-event read passes over a matching event exactly when one after the cursor was already evicted, or one is
      cut off by the age floor before two wanted events were found. */
  lemma ReadLosesIff(r: Ring, epoch: nat, p: nat, floor: Option<int>, q: Query, o: Outcome)
    requires r.Valid() && epoch < U64_LIMIT && p <= r.Head()
    requires Reads(r, epoch, Some(CursorStr(epoch, p)), floor, Some(1), q, o)
    ensures var start := if p < r.evicted then r.evicted else p;
            Passed(r, q, p, o.pos, o.picked) != {} <==>
            exists s :: p < s && r.Matching(q, s)
              && (s <= r.evicted || (r.Below(floor, s) && |Select(r, floor, q, start, s - 1)| < 2))
  {
    hide CursorStr, ParseCursor, Select;
    SingleRead(r, epoch, p, floor, q, o);
    CursorRoundTrip(epoch, p);
    var (start, gap) := StartAfter(r, epoch, CursorStr(epoch, p));
    var lost := Passed(r, q, p, o.pos, o.picked);
    forall s | start < s && r.Below(floor, s) ensures s <= o.pos <==> |Select(r, floor, q, start, s - 1)| < 2 {
      ReachesIff(r, start, gap, floor, q, o, s);
    }
    if s :| p < s && r.Matching(q, s) && (s <= r.evicted || (r.Below(floor, s) && |Select(r, floor, q, start, s - 1)| < 2)) {
      assert s in lost;
    }
    if lost != {} {
      var s :| s in lost;
      assert p < s && r.Matching(q, s) && (s <= r.evicted || (r.Below(floor, s) && |Select(r, floor, q, start, s - 1)| < 2));
    }
  }

  /** The replay loop does not look at the truncation flag: here one event is sent, another was evicted before it could
      be, and no frame announces it. */
  lemma ReplayLosesSilently(e: Event, epoch: nat)
    requires epoch < U64_LIMIT
    ensures var q := Query(None, None);
            var before, after := Ring([e, e], 0), Ring([e, e], 1);
            var o := Outcome([2], 2, true, false);
            var fresh0 := History(0, [Opened(0, false)], {}, {});
            var h := Advance(after, q, fresh0, 0, 2, [2], false);
            && Reads(before, epoch, Some(CursorStr(epoch, 0)), None, Some(0), q, Outcome([], 0, false, true))
            && Evolves(before, after)
            && Reads(after, epoch, Some(CursorStr(epoch, 0)), None, Some(1), q, o)
            && h.silent == {1} && !Reannounced(h.marks) && !WasSent(h.marks, 1)
  {
    hide CursorStr, ParseCursor;
    CursorRoundTrip(epoch, 0);
    var q := Query(None, None);
    var before, after := Ring([e, e], 0), Ring([e, e], 1);
    assert Select(before, None, q, 0, 0) == [];
    assert Select(after, None, q, 1, 1) == [];
    assert Select(after, None, q, 1, 2) == [2];
    assert Passed(after, q, 0, 2, [2]) == {1};
  }

  /** Opening at position `p` resumes from the requested cursor: when that is an own position `s` not past the head,
      only non-matching events lie in `(s, p]`, unless the opening is flagged. */
  ghost predicate ResumesFrom(head: nat, r: Ring, epoch: nat, q: Query, cursor: Option<string>, p: nat, truncated: bool) {
    forall s: nat :: s <= head && cursor == Some(CursorStr(epoch, s)) ==>
      s <= p && (truncated || forall t :: s < t <= p ==> !r.Matching(q, t))
  }

  lemma ResumesStable(head: nat, r: Ring, r': Ring, epoch: nat, q: Query, cursor: Option<string>, p: nat, truncated: bool)
    requires Evolves(r, r') && ResumesFrom(head, r, epoch, q, cursor, p, truncated) && p <= r.Head()
    ensures ResumesFrom(head, r', epoch, q, cursor, p, truncated)
  {
    forall s: nat | s <= head && cursor == Some(CursorStr(epoch, s))
      ensures s <= p && (truncated || forall t :: s < t <= p ==> !r'.Matching(q, t))
    {
      if !truncated {
        forall t | s < t <= p ensures !r'.Matching(q, t) {
          assert !r.Matching(q, t);
        }
      }
    }
  }

  /** A session that has only said where it starts is faithful. */
  lemma JustOpened(r: Ring, q: Query, pos: nat, truncated: bool)
    requires pos <= r.Head()
    ensures Faithful(r, q, History(pos, [Opened(pos, truncated)], {}, {}), pos)
  {
  }

  /** Absorbing a one-event read, whatever it picked, keeps the invariant. */
  lemma Absorb(r: Ring, epoch: nat, q: Query, h: History, p: nat, floor: Option<int>, o: Outcome, announce: bool)
    requires r.Valid() && epoch < U64_LIMIT && Faithful(r, q, h, p)
    requires Reads(r, epoch, Some(CursorStr(epoch, p)), floor, Some(1), q, o)
    ensures p <= o.pos <= r.Head() && |o.picked| <= 1
    ensures Faithful(r, q, Advance(r, q, h, p, o.pos, o.picked, announce), o.pos)
    ensures o.picked == [] ==> !o.hasMore
    ensures !o.hasMore ==> o.pos == r.Head()
  {
    SingleRead(r, epoch, p, floor, q, o);
    hide Faithful, Reads;
    if o.picked == [] {
      PassOver(r, q, h, p, o.pos, announce);
    } else {
      assert o.picked == [o.picked[0]] && o.picked[0] in o.picked;
      SendOne(r, q, h, p, o.pos, o.picked[0], announce);
    }
  }

  /** Everything that ties a session's cursor and frames to the log. */
  ghost predicate Session(r: Ring, epoch: nat, name: string, q: Query, cur: string, p: nat, frames: seq<Frame>, h: History) {
    && cur == CursorStr(epoch, p)
    && |frames| == |h.marks| > 0
    && (forall k :: 0 <= k < |frames| ==> FrameIs(r, epoch, name, frames[k], h.marks[k]))
    && Faithful(r, q, h, p)
  }

  lemma SessionStable(r: Ring, r': Ring, epoch: nat, name: string, q: Query, cur: string, p: nat, frames: seq<Frame>, h: History)
    requires Evolves(r, r') && Session(r, epoch, name, q, cur, p, frames, h)
    ensures Session(r', epoch, name, q, cur, p, frames, h)
  {
    FaithfulStable(r, r', q, h, p);
    forall k | 0 <= k < |frames| ensures FrameIs(r', epoch, name, frames[k], h.marks[k]) {
      assert FrameIs(r, epoch, name, frames[k], h.marks[k]);
    }
  }

  lemma SessionOpens(r: Ring, epoch: nat, name: string, q: Query, pos: nat, truncated: bool)
    requires pos <= r.Head()
    ensures Session(r, epoch, name, q, CursorStr(epoch, pos), pos, [Active(CursorStr(epoch, pos), truncated)],
                    History(pos, [Opened(pos, truncated)], {}, {}))
  {
    JustOpened(r, q, pos, truncated);
  }

  /** The frame list after absorbing a read. */
  function FramesAfter(frames: seq<Frame>, read: ReadResult): seq<Frame> {
    if |read.events| == 0 then frames else frames + [EventFrame(read.events[0].(cursor := Some(read.cursor)))]
  }

  lemma SessionAbsorbs(r: Ring, epoch: nat, name: string, q: Query, cur: string, p: nat, frames: seq<Frame>, h: History,
                       floor: Option<int>, o: Outcome, read: ReadResult, announce: bool)
    requires r.Valid() && epoch < U64_LIMIT && Session(r, epoch, name, q, cur, p, frames, h)
    requires Reads(r, epoch, Some(cur), floor, Some(1), q, o) && Renders(r, epoch, name, o, read)
    ensures p <= o.pos <= r.Head() && |o.picked| <= 1
    ensures Session(r, epoch, name, q, read.cursor, o.pos, FramesAfter(frames, read),
                    Advance(r, q, h, p, o.pos, o.picked, announce))
    ensures |read.events| == 0 ==> !read.hasMore
    ensures !read.hasMore ==> o.pos == r.Head()
  {
    hide Faithful, Reads, Passed;
    Absorb(r, epoch, q, h, p, floor, o, announce);
  }

  /** Adding a frame that carries no event: a re-announcement, a heartbeat or the closing response. */
  lemma SessionSays(r: Ring, epoch: nat, name: string, q: Query, cur: string, p: nat, frames: seq<Frame>, h: History,
                    f: Frame, m: Mark)
    requires Session(r, epoch, name, q, cur, p, frames, h)
    requires !m.Sent? && m.pos == p && FrameIs(r, epoch, name, f, m)
    ensures Session(r, epoch, name, q, cur, p, frames + [f], h.(marks := h.marks + [m]))
  {
    AddFrame(r, q, h, p, m);
  }

  // ----- what was read, and what was lost by it -----

  /** The probe a session opened with: the ring it found, what was asked, when, and its outcome. */
  datatype Opening = Opening(ring: Ring, cursor: Option<string>, now: int, age: Option<nat>, out: Outcome) {
    function Floor(): Option<int> {
      FloorOf(now, age)
    }
  }

  ghost predicate WasOpened(r: Ring, epoch: nat, q: Query, x: Opening) {
    x.ring.Valid() && Evolves(x.ring, r) && Reads(x.ring, epoch, x.cursor, x.Floor(), Some(0), q, x.out)
  }

  /** One read of the replay loop or of a re-sync: the frame that opened the loop, the ring the read found, the position
      and age limit it asked with, when, and its outcome. */
  datatype Fetched = Fetched(opening: nat, ring: Ring, from: nat, now: int, age: Option<nat>, out: Outcome) {
    function Floor(): Option<int> {
      FloorOf(now, age)
    }
  }

  /** The matching events a read passed over. */
  ghost function Lost(q: Query, x: Fetched): set<nat> {
    Passed(x.ring, q, x.from, x.out.pos, x.out.picked)
  }

  ghost function LostBy(q: Query, fetched: seq<Fetched>): set<nat> {
    if fetched == [] then {} else LostBy(q, fetched[..|fetched| - 1]) + Lost(q, fetched[|fetched| - 1])
  }

  /** The read was made, of one event, on the way to ring `r`. */
  ghost predicate WasRead(r: Ring, epoch: nat, q: Query, x: Fetched) {
    && x.ring.Valid() && Evolves(x.ring, r) && x.from <= x.ring.Head()
    && Reads(x.ring, epoch, Some(CursorStr(epoch, x.from)), x.Floor(), Some(1), q, x.out)
  }

  /** Where the loop that frame `opening` opened reads next: at first from the position the frame announced, and then,
      as long as the last read said that there is more, from where that read ended. */
  ghost predicate Upcoming(marks: seq<Mark>, fetched: seq<Fetched>, opening: nat, p: nat) {
    && opening < |marks| && marks[opening].Opened? && marks[opening].pos <= p
    && if fetched != [] && fetched[|fetched| - 1].opening == opening
       then fetched[|fetched| - 1].out.hasMore && p == fetched[|fetched| - 1].out.pos
       else p == marks[opening].pos && (fetched == [] || fetched[|fetched| - 1].opening < opening)
  }

  /** The reads were all made, each where its loop had to go on. */
  ghost predicate WereRead(r: Ring, epoch: nat, q: Query, marks: seq<Mark>, fetched: seq<Fetched>) {
    forall k :: 0 <= k < |fetched| ==>
      WasRead(r, epoch, q, fetched[k]) && Upcoming(marks, fetched[..k], fetched[k].opening, fetched[k].from)
  }

  /** Some read of the loop was truncated. */
  ghost predicate ReplayGap(fetched: seq<Fetched>) {
    exists k :: 0 <= k < |fetched| && fetched[k].out.truncated
  }

  /** The session announced a truncation after its opening, as it does on lag. */
  ghost predicate Reannounced(marks: seq<Mark>) {
    exists k :: 0 < k < |marks| && marks[k].Opened? && marks[k].truncated
  }

  /** These reads all asked with this age limit. */
  ghost predicate Aged(age: Option<nat>, fetched: seq<Fetched>) {
    forall k :: 0 <= k < |fetched| ==> fetched[k].age == age
  }

  ghost predicate ByReplay(fetched: seq<Fetched>) {
    forall k :: 0 <= k < |fetched| ==> fetched[k].opening == 0
  }

  /** Each of these reads followed a truncation that was announced after the session's opening. */
  ghost predicate ByResync(marks: seq<Mark>, fetched: seq<Fetched>) {
    forall k :: 0 <= k < |fetched| ==>
      0 < fetched[k].opening < |marks| && marks[fetched[k].opening].Opened? && marks[fetched[k].opening].truncated
  }

  /** Everything a session read: its probe, its replay loop, and its re-syncs. */
  datatype Trace = Trace(probe: Opening, replayed: seq<Fetched>, resynced: seq<Fetched>)

  /** The session opened where its probe ended, and lost exactly what its reads passed over. */
  ghost predicate Traced(r: Ring, epoch: nat, q: Query, h: History, t: Trace) {
    && WasOpened(r, epoch, q, t.probe) && h.origin == t.probe.out.pos
    && |h.marks| > 0 && h.marks[0] == Opened(h.origin, t.probe.out.truncated)
    && WereRead(r, epoch, q, h.marks, t.replayed) && ByReplay(t.replayed) && Aged(t.probe.age, t.replayed)
    && WereRead(r, epoch, q, h.marks, t.resynced) && ByResync(h.marks, t.resynced) && Aged(None, t.resynced)
    && h.silent == LostBy(q, t.replayed) && h.announced == LostBy(q, t.resynced)
  }

  lemma WasReadStable(r: Ring, r': Ring, epoch: nat, q: Query, x: Fetched)
    requires Evolves(r, r') && WasRead(r, epoch, q, x)
    ensures WasRead(r', epoch, q, x)
  {
    hide Reads, CursorStr;
  }

  lemma TracedStable(r: Ring, r': Ring, epoch: nat, q: Query, h: History, t: Trace)
    requires Evolves(r, r') && Traced(r, epoch, q, h, t)
    ensures Traced(r', epoch, q, h, t)
  {
    hide Reads, CursorStr, WasRead, Upcoming, LostBy, ByResync, ByReplay, Aged;
    forall k | 0 <= k < |t.replayed| ensures WasRead(r', epoch, q, t.replayed[k]) {
      WasReadStable(r, r', epoch, q, t.replayed[k]);
    }
    forall k | 0 <= k < |t.resynced| ensures WasRead(r', epoch, q, t.resynced[k]) {
      WasReadStable(r, r', epoch, q, t.resynced[k]);
    }
  }

  lemma UpcomingStill(marks: seq<Mark>, marks': seq<Mark>, fetched: seq<Fetched>, opening: nat, p: nat)
    requires marks <= marks' && Upcoming(marks, fetched, opening, p)
    ensures Upcoming(marks', fetched, opening, p)
  {
  }

  lemma WereReadStill(r: Ring, epoch: nat, q: Query, marks: seq<Mark>, marks': seq<Mark>, fetched: seq<Fetched>)
    requires marks <= marks' && WereRead(r, epoch, q, marks, fetched)
    ensures WereRead(r, epoch, q, marks', fetched)
  {
    hide WasRead, Upcoming;
    forall k | 0 <= k < |fetched| ensures Upcoming(marks', fetched[..k], fetched[k].opening, fetched[k].from) {
      UpcomingStill(marks, marks', fetched[..k], fetched[k].opening, fetched[k].from);
    }
  }

  /** Further frames leave the trace alone. */
  lemma TracedSays(r: Ring, epoch: nat, q: Query, h: History, t: Trace, marks': seq<Mark>)
    requires Traced(r, epoch, q, h, t) && h.marks <= marks'
    ensures Traced(r, epoch, q, h.(marks := marks'), t)
  {
    WereReadStill(r, epoch, q, h.marks, marks', t.replayed);
    WereReadStill(r, epoch, q, h.marks, marks', t.resynced);
    hide WereRead, WasOpened, LostBy;
  }

  lemma OneMoreRead(r: Ring, epoch: nat, q: Query, marks: seq<Mark>, fetched: seq<Fetched>, x: Fetched)
    requires WereRead(r, epoch, q, marks, fetched) && WasRead(r, epoch, q, x) && Upcoming(marks, fetched, x.opening, x.from)
    ensures WereRead(r, epoch, q, marks, fetched + [x])
    ensures LostBy(q, fetched + [x]) == LostBy(q, fetched) + Lost(q, x)
    ensures x.out.hasMore && x.from <= x.out.pos ==> Upcoming(marks, fetched + [x], x.opening, x.out.pos)
  {
    hide WasRead;
    var all := fetched + [x];
    assert all[..|fetched|] == fetched;
    forall k | 0 <= k < |all| ensures WasRead(r, epoch, q, all[k]) && Upcoming(marks, all[..k], all[k].opening, all[k].from) {
      if k < |fetched| {
        assert all[..k] == fetched[..k];
        assert WasRead(r, epoch, q, fetched[k]) && Upcoming(marks, fetched[..k], fetched[k].opening, fetched[k].from);
      }
    }
  }

  /** The trace with one more read, of the replay loop or of the re-sync its opening frame stands for. */
  function Longer(t: Trace, x: Fetched): Trace {
    if x.opening == 0 then t.(replayed := t.replayed + [x]) else t.(resynced := t.resynced + [x])
  }

  /** The reads of the loop that frame `opening` belongs to: the replay loop's, or those of the re-syncs. */
  function LoopOf(t: Trace, opening: nat): seq<Fetched> {
    if opening == 0 then t.replayed else t.resynced
  }

  /** A loop may go on from position `p`; a re-sync reads without an age limit, after an announced truncation. */
  ghost predicate MayRead(h: History, t: Trace, opening: nat, p: nat, age: Option<nat>) {
    && Upcoming(h.marks, LoopOf(t, opening), opening, p)
    && if opening > 0 then h.marks[opening].truncated && age.None? else age == t.probe.age
  }

  lemma TracedReads(r: Ring, epoch: nat, q: Query, h: History, t: Trace, age: Option<nat>, x: Fetched)
    requires Traced(r, epoch, q, h, t) && WasRead(r, epoch, q, x) && x.ring == r && |x.out.picked| <= 1 && x.from <= x.out.pos
    requires MayRead(h, t, x.opening, x.from, age) && x.age == age
    ensures var h' := Advance(r, q, h, x.from, x.out.pos, x.out.picked, x.opening > 0);
            && Traced(r, epoch, q, h', Longer(t, x))
            && (x.out.hasMore ==> MayRead(h', Longer(t, x), x.opening, x.out.pos, age))
  {
    hide WasRead, WereRead, Upcoming, LostBy, Passed, WasOpened;
    var h' := Advance(r, q, h, x.from, x.out.pos, x.out.picked, x.opening > 0);
    OneMoreRead(r, epoch, q, h.marks, LoopOf(t, x.opening), x);
    WereReadStill(r, epoch, q, h.marks, h'.marks, Longer(t, x).replayed);
    WereReadStill(r, epoch, q, h.marks, h'.marks, Longer(t, x).resynced);
    if x.out.hasMore {
      UpcomingStill(h.marks, h'.marks, LoopOf(Longer(t, x), x.opening), x.opening, x.out.pos);
    }
    UpcomingOpened(h.marks, LoopOf(t, x.opening), x.opening, x.from);
  }

  lemma UpcomingOpened(marks: seq<Mark>, fetched: seq<Fetched>, opening: nat, p: nat)
    requires Upcoming(marks, fetched, opening, p)
    ensures opening < |marks| && marks[opening].Opened? && marks[opening].pos <= p
  {
  }

  /** A session that has only said where it starts; when the probe found more, replay goes on from there. */
  lemma TraceOpens(r: Ring, epoch: nat, q: Query, x: Opening)
    requires WasOpened(r, epoch, q, x)
    ensures var h, t := History(x.out.pos, [Opened(x.out.pos, x.out.truncated)], {}, {}), Trace(x, [], []);
            Traced(r, epoch, q, h, t) && MayRead(h, t, 0, x.out.pos, x.age)
  {
    hide WasOpened;
  }

  /** Exactly the events lost in some of these reads. */
  lemma {:induction false} LostInOne(q: Query, fetched: seq<Fetched>)
    ensures forall s :: s in LostBy(q, fetched) <==> exists k :: 0 <= k < |fetched| && s in Lost(q, fetched[k])
  {
    hide Lost;
    if fetched != [] {
      var front, n := fetched[..|fetched| - 1], |fetched| - 1;
      LostInOne(q, front);
      forall s ensures s in LostBy(q, fetched) <==> exists k :: 0 <= k < |fetched| && s in Lost(q, fetched[k]) {
        if k :| 0 <= k < |front| && s in Lost(q, front[k]) {
          assert s in Lost(q, fetched[k]);
        }
        if k :| 0 <= k < |fetched| && s in Lost(q, fetched[k]) {
          assert k < n ==> s in Lost(q, front[k]);
        }
      }
    }
  }

  /** What one read of a loop lost, seen from the ring it found: all of it lay above the frame that opened the loop, and
      had been evicted or was cut off by the age floor. */
  lemma LostFrom(r: Ring, epoch: nat, q: Query, marks: seq<Mark>, fetched: seq<Fetched>, k: nat, s: nat)
    requires epoch < U64_LIMIT && WereRead(r, epoch, q, marks, fetched) && k < |fetched| && s in Lost(q, fetched[k])
    ensures var x := fetched[k];
            && x.opening < |marks| && marks[x.opening].Opened? && marks[x.opening].pos <= x.from < s <= x.out.pos
            && x.ring.Matching(q, s) && (s <= x.ring.evicted || x.ring.Below(x.Floor(), s)) && x.out.truncated
  {
    var x := fetched[k];
    assert WasRead(r, epoch, q, x);
    SingleRead(x.ring, epoch, x.from, x.Floor(), q, x.out);
  }

  /** A session's losses. `silent` holds exactly what the replay loop's reads passed over: events that were evicted or
      below the age floor when the read was made. `announced` holds exactly what the re-syncs' reads passed over: events
      above the position of a truncation frame sent earlier in the session, and evicted by the time of the read. */
  lemma LossesAre(r: Ring, epoch: nat, q: Query, h: History, t: Trace)
    requires epoch < U64_LIMIT && Traced(r, epoch, q, h, t)
    ensures forall s :: s in h.silent <==> exists k :: 0 <= k < |t.replayed| && s in Lost(q, t.replayed[k])
    ensures forall s :: s in h.announced <==> exists k :: 0 <= k < |t.resynced| && s in Lost(q, t.resynced[k])
    ensures forall k, s :: 0 <= k < |t.replayed| && s in Lost(q, t.replayed[k]) ==>
      var x := t.replayed[k]; s <= x.ring.evicted || x.ring.Below(x.Floor(), s)
    ensures forall k, s :: 0 <= k < |t.resynced| && s in Lost(q, t.resynced[k]) ==>
      var x := t.resynced[k];
      && x.opening < |h.marks| && h.marks[x.opening] == Opened(h.marks[x.opening].pos, true)
      && h.marks[x.opening].pos < s <= x.ring.evicted
  {
    hide WereRead, WasOpened, Lost;
    LostInOne(q, t.replayed);
    LostInOne(q, t.resynced);
    forall k, s | 0 <= k < |t.replayed| && s in Lost(q, t.replayed[k])
      ensures var x := t.replayed[k]; s <= x.ring.evicted || x.ring.Below(x.Floor(), s)
    {
      LostFrom(r, epoch, q, h.marks, t.replayed, k, s);
    }
    forall k, s | 0 <= k < |t.resynced| && s in Lost(q, t.resynced[k])
      ensures var x := t.resynced[k];
        && x.opening < |h.marks| && h.marks[x.opening] == Opened(h.marks[x.opening].pos, true)
        && h.marks[x.opening].pos < s <= x.ring.evicted
    {
      LostFrom(r, epoch, q, h.marks, t.resynced, k, s);
    }
  }

  lemma ResyncsAreAnnounced(marks: seq<Mark>, fetched: seq<Fetched>)
    requires ByResync(marks, fetched)
    ensures fetched != [] ==> Reannounced(marks)
  {
    if fetched != [] {
      assert 0 < fetched[0].opening < |marks|;
    }
  }

  /** Where no replay read was truncated nothing was lost silently, and where no truncation was announced after the
      opening nothing was lost with an announcement. */
  lemma NothingLost(r: Ring, epoch: nat, q: Query, h: History, t: Trace)
    requires epoch < U64_LIMIT && Traced(r, epoch, q, h, t)
    ensures !ReplayGap(t.replayed) ==> h.silent == {}
    ensures !Reannounced(h.marks) ==> h.announced == {}
  {
    LossesAre(r, epoch, q, h, t);
    hide WereRead, WasOpened, Lost, LostBy;
    if !ReplayGap(t.replayed) && h.silent != {} {
      var s :| s in h.silent;
      var k :| 0 <= k < |t.replayed| && s in Lost(q, t.replayed[k]);
      LostFrom(r, epoch, q, h.marks, t.replayed, k, s);
    }
    ResyncsAreAnnounced(h.marks, t.resynced);
  }

  /** The probe's start: no later than the head it found, the head itself when no cursor was asked with, and otherwise
      resuming from that cursor. */
  lemma OpeningResumes(r: Ring, epoch: nat, q: Query, x: Opening)
    requires epoch < U64_LIMIT && WasOpened(r, epoch, q, x)
    ensures x.out.pos <= x.ring.Head() <= r.Head()
    ensures x.cursor.None? ==> x.out.pos == x.ring.Head() && !x.out.truncated && !x.out.hasMore
    ensures ResumesFrom(x.ring.Head(), r, epoch, q, x.cursor, x.out.pos, x.out.truncated)
  {
    forall s: nat | x.cursor == Some(CursorStr(epoch, s)) && s <= x.ring.Head()
      ensures s <= x.out.pos && (x.out.truncated || forall t :: s < t <= x.out.pos ==> !x.ring.Matching(q, t))
    {
      ProbeSkipsNothing(x.ring, epoch, s, x.Floor(), q, x.out);
    }
    ResumesStable(x.ring.Head(), x.ring, r, epoch, q, x.cursor, x.out.pos, x.out.truncated);
  }

  /** The next live event in order, delivered when it matches. */
  lemma SessionTails(r: Ring, epoch: nat, name: string, q: Query, cur: string, p: nat, frames: seq<Frame>, h: History)
    requires Session(r, epoch, name, q, cur, p, frames, h) && p < r.Head()
    ensures var c := CursorStr(epoch, p + 1);
            if r.Matching(q, p + 1)
            then Session(r, epoch, name, q, c, p + 1, frames + [EventFrame(OccurrenceOf(r, name, p + 1).(cursor := Some(c)))],
                         h.(marks := h.marks + [Sent(p + 1, p + 1)]))
            else Session(r, epoch, name, q, c, p + 1, frames, h)
  {
    hide Faithful;
    if r.Matching(q, p + 1) {
      assert Passed(r, q, p, p + 1, [p + 1]) == {};
      SendOne(r, q, h, p, p + 1, p + 1, false);
      assert Advance(r, q, h, p, p + 1, [p + 1], false) == h.(marks := h.marks + [Sent(p + 1, p + 1)]);
    } else {
      assert Passed(r, q, p, p + 1, []) == {};
      PassOver(r, q, h, p, p + 1, false);
      assert Advance(r, q, h, p, p + 1, [], false) == h;
    }
  }

  /** The same with the session's trace, `occ` being what the live channel carries. */
  lemma LiveTails(r: Ring, epoch: nat, name: string, q: Query, cur: string, p: nat, frames: seq<Frame>, h: History, t: Trace,
                  occ: EventOccurrence)
    requires Session(r, epoch, name, q, cur, p, frames, h) && Traced(r, epoch, q, h, t) && p < r.Head() && r.Valid()
    requires epoch < U64_LIMIT && occ == OccurrenceOf(r, name, p + 1).(cursor := Some(CursorStr(epoch, p + 1)))
    ensures var c, h1 := CursorStr(epoch, p + 1), h.(marks := h.marks + [Sent(p + 1, p + 1)]);
            if q.Matches(occ.data)
            then Session(r, epoch, name, q, c, p + 1, frames + [EventFrame(occ)], h1) && Traced(r, epoch, q, h1, t)
            else Session(r, epoch, name, q, c, p + 1, frames, h)
    ensures r.Matching(q, p + 1) <==> q.Matches(occ.data)
    ensures SeqOf(CursorStr(epoch, p + 1)) == p + 1
  {
    hide Session, Traced, CursorStr;
    SessionTails(r, epoch, name, q, cur, p, frames, h);
    TracedSays(r, epoch, q, h, t, h.marks + [Sent(p + 1, p + 1)]);
    CursorRoundTrip(epoch, p + 1);
  }

  /** What the environment lets a turn of the live tail see: the next event, a lag that moves the receiver on (with how
      much of the re-sync is observed), the heartbeat, or the end of the channel. */
  datatype Arm = Arrived | LaggedTo(next: nat, budget: nat) | Ticked | Shut

  predicate Quiet(arms: seq<Arm>) {
    forall i :: 0 <= i < |arms| ==> arms[i].Arrived? || arms[i].Ticked?
  }

  function Arrivals(arms: seq<Arm>): nat {
    if arms == [] then 0 else Arrivals(arms[..|arms| - 1]) + if arms[|arms| - 1].Arrived? then 1 else 0
  }

  lemma MoreArms(arms: seq<Arm>, i: nat)
    requires i < |arms|
    ensures Arrivals(arms[..i + 1]) == Arrivals(arms[..i]) + if arms[i].Arrived? then 1 else 0
    ensures Quiet(arms) ==> Quiet(arms[..i]) && !arms[i].LaggedTo? && !arms[i].Shut?
  {
    assert arms[..i + 1][..i] == arms[..i];
  }

  /** A receiver that started at `rx` has taken what arrived, as far as there was something to take. */
  predicate CaughtUp(rx: nat, rx': nat, arrivals: nat, head: nat) {
    rx' >= if rx + arrivals < head then rx + arrivals else head
  }

  class EventStream {
    const buf: EventBuffer
    const name: string
    const maxAgeMs: Option<nat>
    const q: Query
    var cur: string
    var lastSeq: nat
    var pending: bool
    var rx: nat
    var frames: seq<Frame>
    ghost var p: nat
    ghost var h: History
    ghost var t: Trace

    ghost predicate Inv()
      reads this, buf
    {
      && buf.Valid()
      && cur == CursorStr(buf.epoch, p) && p <= buf.RingOf(name).Head()
      && Session(buf.RingOf(name), buf.epoch, name, q, cur, p, frames, h)
      && rx <= buf.RingOf(name).Head()
      && Traced(buf.RingOf(name), buf.epoch, q, h, t)
      && t.probe.age == maxAgeMs
    }

    /** The replay loop goes on from the session's position, or the tail may start there. */
    ghost predicate Replaying()
      reads this
    {
      if pending then MayRead(h, t, 0, p, maxAgeMs) else rx <= p
    }

    /** Every tail iteration starts here: the live position and the cursor agree, and the receiver is not ahead. */
    ghost predicate Tailing()
      reads this, buf
    {
      Inv() && lastSeq == SeqOf(cur) == p && rx <= p
    }

    /** Other tasks emit, evict and read; the session has already said what it said. */
    method Interfere(steps: nat)
      requires Inv()
      modifies buf
      ensures Inv() && Evolves(old(buf.RingOf(name)), buf.RingOf(name))
    {
      hide Session, Traced, CursorStr, SeqOf, EventBuffer.Valid, EventBuffer.RingOf;
      buf.Interfere(steps);
      SessionStable(old(buf.RingOf(name)), buf.RingOf(name), buf.epoch, name, q, cur, p, frames, h);
      TracedStable(old(buf.RingOf(name)), buf.RingOf(name), buf.epoch, q, h, t);
    }

    /** Subscribes to the live channel, then probes the buffer, and announces the effective start position. */
    constructor (buf: EventBuffer, name: string, cursor: Option<string>, maxAgeMs: Option<nat>, q: Query)
      requires buf.Valid()
      modifies buf
      ensures this.buf == buf && this.name == name && this.maxAgeMs == maxAgeMs && this.q == q
      ensures Inv() && Evolves(old(buf.RingOf(name)), buf.RingOf(name)) && Replaying()
      ensures t.probe.ring == buf.RingOf(name) && t.probe.cursor == cursor && t.probe.age == maxAgeMs
      ensures t == Trace(t.probe, [], []) && p == h.origin
      ensures h == History(t.probe.out.pos, [Opened(t.probe.out.pos, t.probe.out.truncated)], {}, {})
      ensures pending == t.probe.out.hasMore && rx == old(buf.RingOf(name)).Head()
    {
      hide Session, Traced, MayRead, WasOpened, CursorStr, SeqOf, EventBuffer.Valid, EventBuffer.RingOf;
      this.buf := buf;
      this.name := name;
      this.maxAgeMs := maxAgeMs;
      this.q := q;
      cur, lastSeq, pending, rx, frames := "", 0, false, 0, [];
      p, h := 0, History(0, [], {}, {});
      t := Trace(Opening(buf.RingOf(name), None, 0, None, Outcome([], 0, false, false)), [], []);
      new;
      var probe;
      ghost var x;
      rx, probe, x := Probe(buf, name, cursor, maxAgeMs, q);
      cur := probe.cursor;
      frames := [Active(cur, probe.truncated)];
      pending := probe.hasMore;
      p, h, t := x.out.pos, History(x.out.pos, [Opened(x.out.pos, x.out.truncated)], {}, {}), Trace(x, [], []);
      SessionOpens(buf.RingOf(name), buf.epoch, name, q, x.out.pos, x.out.truncated);
      TraceOpens(buf.RingOf(name), buf.epoch, q, x);
    }

    /** Subscribing comes first: whatever is emitted while the probe waits for its turn reaches the receiver as well. */
    static method Probe(buf: EventBuffer, name: string, cursor: Option<string>, maxAgeMs: Option<nat>, q: Query)
      returns (rx: nat, probe: ReadResult, ghost x: Opening)
      requires buf.Valid()
      modifies buf
      ensures buf.Valid() && Evolves(old(buf.RingOf(name)), buf.RingOf(name))
      ensures rx == old(buf.RingOf(name)).Head()
      ensures WasOpened(buf.RingOf(name), buf.epoch, q, x)
      ensures x.ring == buf.RingOf(name) && x.cursor == cursor && x.age == maxAgeMs
      ensures probe.cursor == CursorStr(buf.epoch, x.out.pos) && probe.truncated == x.out.truncated
      ensures probe.hasMore == x.out.hasMore && (!x.out.hasMore ==> x.out.pos == buf.RingOf(name).Head())
      ensures x.out.pos <= buf.RingOf(name).Head()
    {
      hide CursorStr, SeqOf, EventBuffer.Valid, EventBuffer.RingOf;
      rx := buf.Live(name);
      var others: nat := *;
      buf.Interfere(others);
      var now: int := *;
      ghost var o;
      probe, o := buf.Read(now, name, cursor, maxAgeMs, Some(0), q);
      x := Opening(buf.RingOf(name), cursor, now, maxAgeMs, o);
    }

    /** One locked read of a single event from the current cursor, and what the session is to make of it. */
    method Fetch(age: Option<nat>, ghost opening: nat) returns (read: ReadResult, ghost x: Fetched)
      requires Inv()
      modifies buf
      ensures buf.Valid() && Evolves(old(buf.RingOf(name)), buf.RingOf(name))
      ensures x.opening == opening && x.ring == buf.RingOf(name) && x.from == p && x.age == age
      ensures WasRead(buf.RingOf(name), buf.epoch, q, x) && |x.out.picked| <= 1
      ensures Session(buf.RingOf(name), buf.epoch, name, q, read.cursor, x.out.pos, FramesAfter(frames, read),
                      Advance(x.ring, q, h, p, x.out.pos, x.out.picked, opening > 0))
      ensures read.hasMore == x.out.hasMore && |read.events| == |x.out.picked|
      ensures p <= x.out.pos <= buf.RingOf(name).Head() && read.cursor == CursorStr(buf.epoch, x.out.pos)
      ensures |read.events| == 0 ==> !read.hasMore
      ensures !read.hasMore ==> x.out.pos == buf.RingOf(name).Head()
    {
      hide Faithful, Traced, CursorStr, SeqOf, EventBuffer.Valid, EventBuffer.RingOf;
      var now: int := *;
      ghost var r0 := buf.RingOf(name);
      ghost var o;
      read, o := buf.Read(now, name, Some(cur), age, Some(1), q);
      ghost var r := buf.RingOf(name);
      SessionStable(r0, r, buf.epoch, name, q, cur, p, frames, h);
      SessionAbsorbs(r, buf.epoch, name, q, cur, p, frames, h, FloorOf(now, age), o, read, opening > 0);
      x := Fetched(opening, r, p, now, age, o);
    }

    /** The body of the replay and re-sync loops; others run before the lock is taken again. */
    method ReadOne(age: Option<nat>, ghost opening: nat) returns (more: bool, sent: bool, ghost x: Fetched)
      requires Inv() && MayRead(h, t, opening, p, age)
      modifies this`cur, this`frames, this`p, this`h, this`t, buf
      ensures Inv() && Evolves(old(buf.RingOf(name)), buf.RingOf(name))
      ensures x.opening == opening && x.ring == buf.RingOf(name) && x.from == old(p) <= x.out.pos == p && x.age == age
      ensures WasRead(buf.RingOf(name), buf.epoch, q, x)
      ensures x.out.hasMore == more && (sent <==> x.out.picked != []) && |x.out.picked| <= 1
      ensures h == Advance(x.ring, q, old(h), x.from, p, x.out.picked, opening > 0) && t == Longer(old(t), x)
      ensures !sent ==> !more
      ensures if more then MayRead(h, t, opening, p, age) else p == buf.RingOf(name).Head()
    {
      hide Session, Traced, MayRead, WasRead, Advance, CursorStr, SeqOf, EventBuffer.Valid, EventBuffer.RingOf;
      var others: nat := *;
      Interfere(others);
      ghost var r0 := buf.RingOf(name);
      var read;
      read, x := Fetch(age, opening);
      TracedStable(r0, x.ring, buf.epoch, q, h, t);
      TracedReads(x.ring, buf.epoch, q, h, t, age, x);
      more := read.hasMore;
      sent := |read.events| > 0;
      frames := FramesAfter(frames, read);
      cur := read.cursor;
      p, h, t := x.out.pos, Advance(x.ring, q, h, x.from, x.out.pos, x.out.picked, opening > 0), Longer(t, x);
    }

    /** Replays the retained backlog, until nothing more is pending or the client has gone. */
    method Replay(budget: nat) returns (done: bool)
      requires Inv() && Replaying()
      modifies this, buf
      ensures Inv() && Evolves(old(buf.RingOf(name)), buf.RingOf(name))
      ensures h.origin == old(h).origin && old(h).marks <= h.marks && rx == old(rx) && h.announced == old(h).announced
      ensures t == old(t).(replayed := t.replayed) && old(t).replayed <= t.replayed
      ensures !old(pending) ==> h == old(h) && t == old(t) && p == old(p)
      ensures if done then Tailing() && (old(pending) ==> p == buf.RingOf(name).Head())
              else old(pending) && |t.replayed| == |old(t).replayed| + budget
    {
      hide Session, Traced, MayRead, WasRead, CursorStr, SeqOf, EventBuffer.Valid, EventBuffer.RingOf;
      done := false;
      var left := budget;
      while pending
        invariant Inv() && Evolves(old(buf.RingOf(name)), buf.RingOf(name)) && Replaying()
        invariant h.origin == old(h).origin && old(h).marks <= h.marks && rx == old(rx) && h.announced == old(h).announced
        invariant t == old(t).(replayed := t.replayed) && old(t).replayed <= t.replayed
        invariant !old(pending) ==> !pending && h == old(h) && t == old(t) && p == old(p)
        invariant old(pending) && !pending ==> p == buf.RingOf(name).Head()
        invariant pending ==> |t.replayed| + left == |old(t).replayed| + budget
        decreases left
      {
        if left == 0 {
          return;
        }
        left := left - 1;
        var more, sent;
        ghost var x;
        more, sent, x := ReadOne(maxAgeMs, 0);
        pending := more;
        if !sent {
          break;
        }
      }
      lastSeq := SeqOf(cur);
      CursorRoundTrip(buf.epoch, p);
      done := true;
    }

    /** Re-syncs from the buffer after the receiver lagged, the truncation having been announced at the current cursor by
        frame `opening`. */
    method Resync(budget: nat, ghost opening: nat) returns (done: bool)
      requires Inv() && opening > 0 && MayRead(h, t, opening, p, None)
      modifies this, buf
      ensures Inv() && Evolves(old(buf.RingOf(name)), buf.RingOf(name))
      ensures h.origin == old(h).origin && old(h).marks <= h.marks && rx == old(rx) && h.silent == old(h).silent
      ensures t == old(t).(resynced := t.resynced) && old(t).resynced <= t.resynced
      ensures forall k :: |old(t).resynced| <= k < |t.resynced| ==> t.resynced[k].opening == opening
      ensures lastSeq == old(lastSeq) && old(p) <= p
      ensures if done then p == buf.RingOf(name).Head() else |t.resynced| == |old(t).resynced| + budget
    {
      hide Session, Traced, MayRead, WasRead, CursorStr, SeqOf, EventBuffer.Valid, EventBuffer.RingOf;
      done := false;
      var left := budget;
      var more := true;
      while more
        invariant Inv() && Evolves(old(buf.RingOf(name)), buf.RingOf(name))
        invariant h.origin == old(h).origin && old(h).marks <= h.marks && rx == old(rx) && h.silent == old(h).silent
        invariant t == old(t).(resynced := t.resynced) && old(t).resynced <= t.resynced
        invariant forall k :: |old(t).resynced| <= k < |t.resynced| ==> t.resynced[k].opening == opening
        invariant lastSeq == old(lastSeq) && old(p) <= p
        invariant if more then MayRead(h, t, opening, p, None) else p == buf.RingOf(name).Head()
        invariant more ==> |t.resynced| + left == |old(t).resynced| + budget
        decreases left
      {
        if left == 0 {
          return;
        }
        left := left - 1;
        var sent;
        ghost var x;
        more, sent, x := ReadOne(None, opening);
        if !sent {
          break;
        }
      }
      done := true;
    }

    /** A live event received in order: sent exactly when it is newer than the cursor and matches; nothing is passed over. */
    method OnLive(seqNo: nat, occ: EventOccurrence)
      requires Tailing() && seqNo == rx + 1 <= buf.RingOf(name).Head()
      requires occ == OccurrenceOf(buf.RingOf(name), name, seqNo).(cursor := Some(CursorStr(buf.epoch, seqNo)))
      modifies this
      ensures Tailing() && rx == seqNo && t == old(t)
      ensures p == if seqNo > old(p) then seqNo else old(p)
      ensures h == if seqNo > old(p) && buf.RingOf(name).Matching(q, seqNo)
                   then old(h).(marks := old(h).marks + [Sent(seqNo, seqNo)]) else old(h)
    {
      hide Session, Traced, CursorStr, SeqOf, EventBuffer.Valid, EventBuffer.RingOf;
      rx := seqNo;
      if seqNo > lastSeq {
        LiveTails(buf.RingOf(name), buf.epoch, name, q, cur, p, frames, h, t, occ);
        lastSeq := seqNo;
        if occ.cursor.Some? {
          cur := occ.cursor.value;
        }
        var deliver := if q.params.Some? && q.filter.Some? then q.filter.value(q.params.value, occ.data) else true;
        if deliver {
          frames := frames + [EventFrame(occ)];
          h := h.(marks := h.marks + [Sent(seqNo, seqNo)]);
        }
        p := seqNo;
      }
    }

    /** Adds a frame that carries no event. */
    method Say(f: Frame, ghost m: Mark)
      requires Inv() && !m.Sent? && m.pos == p && FrameIs(buf.RingOf(name), buf.epoch, name, f, m)
      modifies this`frames, this`h
      ensures Inv() && h == old(h).(marks := old(h).marks + [m])
    {
      hide Session, Traced, FrameIs, CursorStr, SeqOf, EventBuffer.Valid, EventBuffer.RingOf;
      SessionSays(buf.RingOf(name), buf.epoch, name, q, cur, p, frames, h, f, m);
      TracedSays(buf.RingOf(name), buf.epoch, q, h, t, h.marks + [m]);
      frames := frames + [f];
      h := h.(marks := h.marks + [m]);
    }

    /** The receiver fell behind and jumped to `next`: announce the truncation, then re-sync. All that is read and lost
        here belongs to the frame that announced it. */
    method OnLag(next: nat, budget: nat) returns (done: bool)
      requires Tailing() && rx < next <= buf.RingOf(name).Head()
      modifies this, buf
      ensures Inv() && Evolves(old(buf.RingOf(name)), buf.RingOf(name))
      ensures h.origin == old(h).origin && h.silent == old(h).silent
      ensures old(h).marks + [Opened(old(p), true)] <= h.marks
      ensures t == old(t).(resynced := t.resynced) && old(t).resynced <= t.resynced
      ensures forall k :: |old(t).resynced| <= k < |t.resynced| ==> t.resynced[k].opening == |old(h).marks|
      ensures if done then Tailing() && rx == next else |t.resynced| == |old(t).resynced| + budget
    {
      hide Session, Traced, MayRead, CursorStr, SeqOf, EventBuffer.Valid, EventBuffer.RingOf;
      Say(Active(cur, true), Opened(p, true));
      rx := next;
      ResyncMayStart(buf.RingOf(name), buf.epoch, q, old(h), old(t), p);
      done := Resync(budget, |old(h).marks|);
      CursorRoundTrip(buf.epoch, p);
      var at := SeqOf(cur);
      lastSeq := if lastSeq < at then at else lastSeq;
    }

    method OnHeartbeat()
      requires Tailing()
      modifies this
      ensures Tailing() && p == old(p) && rx == old(rx) && t == old(t)
      ensures h == old(h).(marks := old(h).marks + [Beat(p)])
    {
      hide Session, Traced, CursorStr, SeqOf, EventBuffer.Valid, EventBuffer.RingOf;
      Say(Heartbeat(cur), Beat(p));
    }

    method OnClosed()
      requires Tailing()
      modifies this
      ensures Tailing() && p == old(p) && rx == old(rx) && t == old(t)
      ensures h == old(h).(marks := old(h).marks + [Ended(p)])
    {
      hide Session, Traced, CursorStr, SeqOf, EventBuffer.Valid, EventBuffer.RingOf;
      Say(Closed, Ended(p));
    }

    /** The live tail: receive in order, re-sync on lag, heartbeat, until closed or the client has gone. */
    method Tail(arms: seq<Arm>)
      requires Tailing()
      modifies this, buf
      ensures Inv() && Evolves(old(buf.RingOf(name)), buf.RingOf(name))
      ensures h.origin == old(h).origin && old(h).marks <= h.marks && h.silent == old(h).silent
      ensures t == old(t).(resynced := t.resynced) && old(t).resynced <= t.resynced
      ensures forall k :: |old(t).resynced| <= k < |t.resynced| ==> t.resynced[k].opening >= |old(h).marks|
      ensures arms == [] ==> h == old(h)
      ensures Quiet(arms) ==> CaughtUp(old(rx), rx, Arrivals(arms), old(buf.RingOf(name)).Head())
      ensures arms != [] && Quiet(arms[..|arms| - 1]) && arms[|arms| - 1].Shut? ==> h.marks[|h.marks| - 1] == Ended(p)
    {
      hide Session, Traced, CursorStr, SeqOf, EventBuffer.Valid, EventBuffer.RingOf;
      for i := 0 to |arms|
        invariant Tailing() && Evolves(old(buf.RingOf(name)), buf.RingOf(name))
        invariant h.origin == old(h).origin && old(h).marks <= h.marks && h.silent == old(h).silent
        invariant t == old(t).(resynced := t.resynced) && old(t).resynced <= t.resynced
        invariant forall k :: |old(t).resynced| <= k < |t.resynced| ==> t.resynced[k].opening >= |old(h).marks|
        invariant i == 0 ==> h == old(h)
        invariant Quiet(arms[..i]) ==> CaughtUp(old(rx), rx, Arrivals(arms[..i]), old(buf.RingOf(name)).Head())
        invariant forall k :: 0 <= k < i ==> !arms[k].Shut?
      {
        MoreArms(arms, i);
        var on := Turn(arms[i]);
        if !on {
          return;
        }
      }
      assert arms[..|arms|] == arms;
    }

    /** One turn of the tail, after whatever the others did. */
    method Turn(arm: Arm) returns (on: bool)
      requires Tailing()
      modifies this, buf
      ensures Inv() && Evolves(old(buf.RingOf(name)), buf.RingOf(name)) && (on ==> Tailing())
      ensures h.origin == old(h).origin && old(h).marks <= h.marks && h.silent == old(h).silent
      ensures t == old(t).(resynced := t.resynced) && old(t).resynced <= t.resynced
      ensures forall k :: |old(t).resynced| <= k < |t.resynced| ==> t.resynced[k].opening >= |old(h).marks|
      ensures !on ==> arm.LaggedTo? || arm.Shut?
      ensures arm.Arrived? ==> (rx == old(rx) + 1 || rx == old(rx) == buf.RingOf(name).Head()) && t == old(t)
      ensures arm.Ticked? ==> rx == old(rx) && h == old(h).(marks := old(h).marks + [Beat(p)])
      ensures arm.Shut? ==> !on && h == old(h).(marks := old(h).marks + [Ended(p)])
      ensures arm.LaggedTo? && old(rx) < arm.next <= old(buf.RingOf(name)).Head() ==>
        old(h).marks + [Opened(old(p), true)] <= h.marks && (on ==> rx == arm.next)
    {
      hide Session, Traced, CursorStr, SeqOf, EventBuffer.Valid, EventBuffer.RingOf;
      var others: nat := *;
      Interfere(others);
      var sentSoFar := buf.SentCount(name);
      on := true;
      match arm {
        case Arrived =>
          if rx < sentSoFar {
            var seqNo, occ := buf.Recv(name, rx);
            OnLive(seqNo, occ);
          }
        case LaggedTo(next, budget) =>
          if rx < next <= sentSoFar {
            on := OnLag(next, budget);
          }
        case Ticked =>
          OnHeartbeat();
        case Shut =>
          OnClosed();
          on := false;
      }
    }

    /** A whole session after it opened; the client may be gone at any point. */
    method Run(replayBudget: nat, arms: seq<Arm>)
      requires Inv() && Replaying()
      modifies this, buf
      ensures Inv() && Evolves(old(buf.RingOf(name)), buf.RingOf(name))
      ensures h.origin == old(h).origin && old(h).marks <= h.marks
      ensures t.probe == old(t).probe && old(t).replayed <= t.replayed && old(t).resynced <= t.resynced
      ensures !old(pending) ==> t.replayed == old(t).replayed && (arms == [] ==> h == old(h))
      ensures Quiet(arms) && (old(pending) ==> |t.replayed| < |old(t).replayed| + replayBudget) ==>
        CaughtUp(old(rx), rx, Arrivals(arms), old(buf.RingOf(name)).Head())
      ensures StrictlyIncreasing(SentSeqs(h.marks))
      ensures forall s :: s in SentSeqs(h.marks) <==>
        (h.origin < s <= p && buf.RingOf(name).Matching(q, s) && s !in LostBy(q, t.replayed) && s !in LostBy(q, t.resynced))
      ensures !ReplayGap(t.replayed) && !Reannounced(h.marks) ==>
        SentSeqs(h.marks) == Select(buf.RingOf(name), None, q, h.origin, p)
    {
      hide Session, Traced, LostBy, ReplayGap, Reannounced, CursorStr, SeqOf, EventBuffer.Valid, EventBuffer.RingOf;
      var done := Replay(replayBudget);
      if done {
        Tail(arms);
      }
      SentBetweenLosses(buf.RingOf(name), buf.epoch, name, q, cur, p, frames, h, t);
    }
  }

  /** Every event a replay read picked lay within the age limit that the session was asked for with, at that read. */
  lemma ReplayedInWindow(r: Ring, epoch: nat, q: Query, h: History, t: Trace, k: nat, s: nat)
    requires epoch < U64_LIMIT && Traced(r, epoch, q, h, t) && k < |t.replayed| && s in t.replayed[k].out.picked
    requires r.Has(s) && r.At(s).timestamp >= MIN_UTC
    ensures var x := t.replayed[k]; x.ring.Matching(q, s) && !Older(r.At(s).timestamp, x.now, t.probe.age)
  {
    var x := t.replayed[k];
    assert WasRead(r, epoch, q, x);
    hide CursorStr, Older;
    SingleRead(x.ring, epoch, x.from, x.Floor(), q, x.out);
    PickedIsWanted(x.ring, epoch, x.from, x.Floor(), q, x.out, s);
    CutOffIsOlder(x.ring, x.now, x.age, s);
  }

  lemma PickedIsWanted(r: Ring, epoch: nat, p: nat, floor: Option<int>, q: Query, o: Outcome, s: nat)
    requires r.Valid() && Reads(r, epoch, Some(CursorStr(epoch, p)), floor, Some(1), q, o) && s in o.picked
    ensures r.Wanted(floor, q, s)
  {
    SelectMembers(r, floor, q, StartAfter(r, epoch, CursorStr(epoch, p)).0, o.pos);
  }

  /** For an own cursor the opening is flagged exactly when an event after it was already evicted, or one that the age
      limit cuts off comes before everything else that the session is after. */
  lemma OpeningFlaggedIff(r: Ring, epoch: nat, q: Query, x: Opening, c: nat)
    requires epoch < U64_LIMIT && WasOpened(r, epoch, q, x) && x.cursor == Some(CursorStr(epoch, c)) && c <= x.ring.Head()
    requires forall s :: x.ring.Has(s) ==> x.ring.At(s).timestamp >= MIN_UTC
    ensures x.out.truncated <==>
      c < x.ring.evicted || exists s :: c < s && x.ring.Has(s) && Older(x.ring.At(s).timestamp, x.now, x.age) && NoneBefore(x, q, c, s)
  {
    hide CursorStr, ParseCursor, Older, FloorOf;
    CursorRoundTrip(epoch, c);
    var g := x.ring;
    var start := StartAfter(g, epoch, CursorStr(epoch, c)).0;
    SelectMembers(g, x.Floor(), q, start, x.out.pos);
    forall s | g.Has(s) ensures g.Below(x.Floor(), s) <==> Older(g.At(s).timestamp, x.now, x.age) {
      CutOffIsOlder(g, x.now, x.age, s);
    }
    assert x.out.picked == [];
    forall u | start < u <= x.out.pos && g.Matching(q, u) ensures g.Below(x.Floor(), u) {
      assert u !in x.out.picked;
    }
    forall s | c < s && c >= g.evicted && g.Has(s) && g.Below(x.Floor(), s) ensures s <= x.out.pos <==> NoneBefore(x, q, c, s) {
      if s <= x.out.pos {
        forall u | c < u < s && g.Matching(q, u) ensures Older(g.At(u).timestamp, x.now, x.age) {
          assert g.Below(x.Floor(), u) && g.Has(u);
        }
      } else {
        assert g.Wanted(x.Floor(), q, x.out.pos + 1) && c < x.out.pos + 1 < s;
      }
    }
  }

  /** Nothing that the session is after lies between its cursor and `s`. */
  ghost predicate NoneBefore(x: Opening, q: Query, c: nat, s: nat) {
    forall u :: c < u < s && x.ring.Matching(q, u) ==> Older(x.ring.At(u).timestamp, x.now, x.age)
  }

  /** The frame just added may open a re-sync at its position. */
  lemma ResyncMayStart(r: Ring, epoch: nat, q: Query, h: History, t: Trace, p: nat)
    requires Traced(r, epoch, q, h, t)
    ensures |h.marks| > 0 && MayRead(h.(marks := h.marks + [Opened(p, true)]), t, |h.marks|, p, None)
  {
    hide WereRead, WasOpened, LostBy;
  }

  /** What a session has sent: the matching events since its start, in order, less those its recorded reads lost. */
  lemma SentBetweenLosses(r: Ring, epoch: nat, name: string, q: Query, cur: string, p: nat, frames: seq<Frame>, h: History, t: Trace)
    requires epoch < U64_LIMIT && Session(r, epoch, name, q, cur, p, frames, h) && Traced(r, epoch, q, h, t)
    ensures StrictlyIncreasing(SentSeqs(h.marks))
    ensures forall s :: s in SentSeqs(h.marks) <==>
      (h.origin < s <= p && r.Matching(q, s) && s !in LostBy(q, t.replayed) && s !in LostBy(q, t.resynced))
    ensures !ReplayGap(t.replayed) && !Reannounced(h.marks) ==> SentSeqs(h.marks) == Select(r, None, q, h.origin, p)
  {
    hide Faithful, WereRead, WasOpened, LostBy, ReplayGap, Reannounced;
    SentExactly(r, q, h, p);
    if !ReplayGap(t.replayed) && !Reannounced(h.marks) {
      NothingLost(r, epoch, q, h, t);
      StitchingExact(r, q, h, p);
    }
  }
}
