/** The polling client: dedup by event id, persist the cursor after printing, drain while there is more. */
module PollClient {
  import opened Cursors
  import opened Log
  import opened Buffer
  import opened Dedup
  import opened Reading

  const DEDUP_CAPACITY: nat := 4096

  /** The event ids at the given seqs. */
  function IdsAt(r: Ring, seqs: seq<nat>): (ids: seq<string>)
    requires forall i :: 0 <= i < |seqs| ==> r.Has(seqs[i])
    ensures |ids| == |seqs| && forall i :: 0 <= i < |seqs| ==> ids[i] == r.At(seqs[i]).eventId
  {
    if seqs == [] then [] else IdsAt(r, seqs[..|seqs| - 1]) + [r.At(seqs[|seqs| - 1]).eventId]
  }

  function BatchIds(events: seq<EventOccurrence>): (ids: seq<string>)
    ensures |ids| == |events| && forall i :: 0 <= i < |events| ==> ids[i] == events[i].eventId
  {
    if events == [] then [] else BatchIds(events[..|events| - 1]) + [events[|events| - 1].eventId]
  }

  lemma RecentWasUsed(history: seq<string>, k: string, cap: nat)
    requires k in LastN(Recency(history), cap)
    ensures k in history
  {
    RecencyMembers(history);
  }

  /** The ids of a batch that are not among the `cap` most recently seen ones when their turn comes. */
  function Unsuppressed(history: seq<string>, ids: seq<string>, cap: nat): seq<string> {
    if ids == [] then []
    else
      var front, id := ids[..|ids| - 1], ids[|ids| - 1];
      Unsuppressed(history, front, cap) + if id in LastN(Recency(history + front), cap) then [] else [id]
  }

  lemma UnsuppressedMore(history: seq<string>, ids: seq<string>, id: string, cap: nat)
    ensures Unsuppressed(history, ids + [id], cap)
         == Unsuppressed(history, ids, cap) + if id in LastN(Recency(history + ids), cap) then [] else [id]
  {
    hide Recency, LastN;
    assert (ids + [id])[..|ids|] == ids;
  }

  /** Printing only those loses no id, and suppresses none that is new. */
  lemma {:induction false} UnsuppressedIsFair(history: seq<string>, ids: seq<string>, printed: seq<string>, cap: nat)
    requires Elements(printed) == Elements(history)
    ensures Elements(printed + Unsuppressed(history, ids, cap)) == Elements(history + ids)
    ensures NoRepeats(history + ids) ==> Unsuppressed(history, ids, cap) == ids
    decreases |ids|
  {
    hide Elements, NoRepeats, Recency, LastN;
    if ids == [] {
      assert printed + [] == printed && history + ids == history;
    } else {
      var front, id := ids[..|ids| - 1], ids[|ids| - 1];
      UnsuppressedIsFair(history, front, printed, cap);
      assert front + [id] == ids;
      FairStep(history, front, id, printed, Unsuppressed(history, front, cap), cap);
    }
  }

  lemma FairStep(history: seq<string>, front: seq<string>, id: string, printed: seq<string>, more: seq<string>, cap: nat)
    requires Elements(printed + more) == Elements(history + front) && (NoRepeats(history + front) ==> more == front)
    ensures var x := if id in LastN(Recency(history + front), cap) then [] else [id];
      Elements(printed + (more + x)) == Elements(history + (front + [id])) &&
      (NoRepeats(history + (front + [id])) ==> more + x == front + [id])
  {
    hide Elements, NoRepeats, Recency, LastN;
    var before := history + front;
    assert history + (front + [id]) == before + [id];
    PrintStep(before, id, printed + more);
    if id in LastN(Recency(before), cap) {
      RecentWasUsed(before, id, cap);
      assert printed + (more + []) == printed + more;
    } else {
      assert printed + (more + [id]) == printed + more + [id];
    }
  }

  /** Prints a batch, suppressing ids among the most recently seen ones. */
  method PrintBatch(events: seq<EventOccurrence>, dedup: LruSet, printed: seq<string>) returns (printed': seq<string>)
    requires dedup.Valid() && Elements(printed) == Elements(dedup.history)
    modifies dedup
    ensures dedup.Valid() && dedup.cap == old(dedup.cap)
    ensures dedup.history == old(dedup.history) + BatchIds(events)
    ensures printed' == printed + Unsuppressed(old(dedup.history), BatchIds(events), old(dedup.cap))
    ensures Elements(printed') == Elements(dedup.history)
    ensures NoRepeats(dedup.history) ==> printed' == printed + BatchIds(events)
  {
    hide BatchIds, Unsuppressed, Elements, NoRepeats, Recency, LastN, LruSet.Valid;
    printed' := printed;
    ghost var h0 := dedup.history;
    NothingPrinted(events, h0, printed, dedup.cap);
    var i := 0;
    while i < |events|
      invariant 0 <= i <= |events|
      invariant dedup.Valid() && dedup.cap == old(dedup.cap)
      invariant dedup.history == h0 + BatchIds(events[..i])
      invariant printed' == printed + Unsuppressed(h0, BatchIds(events[..i]), dedup.cap)
    {
      var id := events[i].eventId;
      ghost var ids, more := BatchIds(events[..i]), Unsuppressed(h0, BatchIds(events[..i]), dedup.cap);
      var duplicate := dedup.CheckAndInsert(id);
      BatchGrows(events, i);
      UnsuppressedMore(h0, ids, id, dedup.cap);
      assert h0 + ids + [id] == h0 + (ids + [id]);
      if duplicate {
        assert more + [] == more;
      } else {
        printed' := printed' + [id];
        assert printed + more + [id] == printed + (more + [id]);
      }
      i := i + 1;
    }
    assert events[..i] == events;
    UnsuppressedIsFair(h0, BatchIds(events), printed, dedup.cap);
  }

  lemma NothingPrinted(events: seq<EventOccurrence>, history: seq<string>, printed: seq<string>, cap: nat)
    ensures history + BatchIds(events[..0]) == history
    ensures printed + Unsuppressed(history, BatchIds(events[..0]), cap) == printed
  {
  }

  lemma BatchGrows(events: seq<EventOccurrence>, i: nat)
    requires i < |events|
    ensures BatchIds(events[..i + 1]) == BatchIds(events[..i]) + [events[i].eventId]
  {
    assert events[..i + 1][..i] == events[..i];
  }

  lemma ElementsAppend(s: seq<string>, x: string)
    ensures Elements(s + [x]) == Elements(s) + {x}
  {
  }

  lemma PrintStep(history: seq<string>, id: string, printed: seq<string>)
    requires Elements(printed) == Elements(history)
    ensures id in history ==> Elements(printed) == Elements(history + [id]) && !NoRepeats(history + [id])
    ensures Elements(printed + [id]) == Elements(history + [id])
    ensures NoRepeats(history + [id]) ==> NoRepeats(history)
  {
    ElementsAppend(history, id);
    ElementsAppend(printed, id);
    assert id in history <==> id in Elements(history);
    forall i, j | NoRepeats(history + [id]) && 0 <= i < j < |history| ensures history[i] != history[j] {
      assert (history + [id])[i] != (history + [id])[j];
    }
    if id in history {
      var i :| 0 <= i < |history| && history[i] == id;
      assert (history + [id])[i] == (history + [id])[|history|];
    }
  }

  lemma BatchIdsArePicked(r: Ring, epoch: nat, name: string, o: Outcome, res: ReadResult)
    requires Renders(r, epoch, name, o, res)
    ensures (forall i :: 0 <= i < |o.picked| ==> r.Has(o.picked[i])) && BatchIds(res.events) == IdsAt(r, o.picked)
  {
  }

  lemma IdsAtConcat(r: Ring, a: seq<nat>, b: seq<nat>)
    requires forall i :: 0 <= i < |a| ==> r.Has(a[i])
    requires forall i :: 0 <= i < |b| ==> r.Has(b[i])
    ensures (forall i :: 0 <= i < |a + b| ==> r.Has((a + b)[i])) && IdsAt(r, a + b) == IdsAt(r, a) + IdsAt(r, b)
  {
  }

  lemma SelectedIds(r: Ring, q: Query, lo: nat, hi: nat)
    ensures forall i :: 0 <= i < |Select(r, None, q, lo, hi)| ==> r.Has(Select(r, None, q, lo, hi)[i])
    ensures StrictlyIncreasing(Select(r, None, q, lo, hi))
  {
    SelectMembers(r, None, q, lo, hi);
    var s := Select(r, None, q, lo, hi);
    forall i | 0 <= i < |s| ensures r.Has(s[i]) {
      assert s[i] in s;
    }
  }

  lemma IncreasingDistinct(r: Ring, seqs: seq<nat>)
    requires forall i :: 0 <= i < |seqs| ==> r.Has(seqs[i])
    requires StrictlyIncreasing(seqs) && DistinctIds(r)
    ensures NoRepeats(IdsAt(r, seqs))
  {
  }

  /** What has been received and printed so far, by a client whose replies were not flagged: with distinct event ids,
      exactly the filtered log between its origin and its cursor. */
  ghost predicate UpToDate(r: Ring, q: Query, origin: nat, p: nat, history: seq<string>, printed: seq<string>) {
    SelectedIds(r, q, origin, p);
    && origin <= p <= r.Head()
    && history == IdsAt(r, Select(r, None, q, origin, p))
    && (DistinctIds(r) ==> printed == history)
  }

  lemma UpToDateStable(r: Ring, r': Ring, q: Query, origin: nat, p: nat, history: seq<string>, printed: seq<string>)
    requires Evolves(r, r') && UpToDate(r, q, origin, p, history, printed)
    ensures UpToDate(r', q, origin, p, history, printed)
  {
    SelectedIds(r, q, origin, p);
    SelectStable(r, r', None, q, origin, p);
    if DistinctIds(r') {
      forall i, j | 0 <= i < j < |r.log| ensures r.log[i].eventId != r.log[j].eventId {
        assert r'.log[i].eventId != r'.log[j].eventId;
      }
    }
  }

  lemma UpToDateAdvances(r: Ring, epoch: nat, name: string, q: Query, origin: nat, p: nat, history: seq<string>, printed: seq<string>,
                         floor: Option<int>, cap: Option<nat>, o: Outcome, res: ReadResult, printed': seq<string>)
    requires r.Valid() && epoch < U64_LIMIT && UpToDate(r, q, origin, p, history, printed)
    requires Reads(r, epoch, Some(CursorStr(epoch, p)), floor, cap, q, o) && Renders(r, epoch, name, o, res) && !o.truncated
    requires NoRepeats(history + BatchIds(res.events)) ==> printed' == printed + BatchIds(res.events)
    ensures UpToDate(r, q, origin, o.pos, history + BatchIds(res.events), printed')
  {
    UntruncatedIsExact(r, epoch, p, floor, cap, q, o);
    SelectSplit(r, None, q, origin, p, o.pos);
    SelectedIds(r, q, origin, p);
    SelectedIds(r, q, p, o.pos);
    SelectedIds(r, q, origin, o.pos);
    BatchIdsArePicked(r, epoch, name, o, res);
    IdsAtConcat(r, Select(r, None, q, origin, p), o.picked);
    if DistinctIds(r) {
      IncreasingDistinct(r, Select(r, None, q, origin, o.pos));
    }
  }

  /** The first reply, if it is not flagged, fixes the origin: the requested position, or the head for no cursor. */
  lemma UpToDateStarts(r: Ring, epoch: nat, name: string, q: Query, saved: Option<string>,
                       floor: Option<int>, cap: Option<nat>, o: Outcome, res: ReadResult, printed: seq<string>)
    requires r.Valid() && epoch < U64_LIMIT
    requires Reads(r, epoch, saved, floor, cap, q, o) && Renders(r, epoch, name, o, res) && !o.truncated
    requires NoRepeats(BatchIds(res.events)) ==> printed == BatchIds(res.events)
    ensures UpToDate(r, q, Origin(epoch, saved, r), o.pos, BatchIds(res.events), printed)
  {
    FirstReply(r, epoch, saved, floor, cap, q, o);
    SelectedIds(r, q, Origin(epoch, saved, r), o.pos);
    BatchIdsArePicked(r, epoch, name, o, res);
    if DistinctIds(r) {
      IncreasingDistinct(r, o.picked);
    }
  }

  lemma CursorAndEnd(r: Ring, epoch: nat, name: string, cursor: Option<string>, floor: Option<int>, cap: Option<nat>, q: Query,
                     o: Outcome, res: ReadResult)
    requires r.Valid() && Reads(r, epoch, cursor, floor, cap, q, o) && Renders(r, epoch, name, o, res)
    ensures res.cursor == CursorStr(epoch, o.pos) && res.hasMore == o.hasMore && res.truncated == o.truncated
    ensures !o.hasMore ==> o.pos == r.Head()
  {
  }

  /** What ties a polling client to the log: its cursor, what it printed, and all the ids it has seen. */
  ghost predicate Following(r: Ring, epoch: nat, q: Query, saved: Option<string>, c: Client, seen: seq<string>) {
    && c.cursor == (if c.started then Some(CursorStr(epoch, c.p)) else saved)
    && Elements(c.printed) == Elements(seen)
    && (!c.started ==> seen == c.printed == [])
    && (c.started && !c.flagged ==>
          && UpToDate(r, q, c.origin, c.p, seen, c.printed)
          && (saved.Some? ==> c.origin == SeqOf(saved.value)))
  }

  /** The client's variables, with what its replies stood for. */
  datatype Client = Client(cursor: Option<string>, printed: seq<string>, started: bool, flagged: bool, origin: nat, p: nat)

  lemma FollowingAfterPoll(r: Ring, r': Ring, epoch: nat, name: string, q: Query, saved: Option<string>, c: Client, seen: seq<string>,
                           floor: Option<int>, cap: Option<nat>, o: Outcome, res: ReadResult, printed': seq<string>)
    requires r'.Valid() && epoch < U64_LIMIT && Evolves(r, r') && Following(r, epoch, q, saved, c, seen)
    requires Reads(r', epoch, c.cursor, floor, cap, q, o) && Renders(r', epoch, name, o, res)
    requires Elements(printed') == Elements(seen + BatchIds(res.events))
    requires NoRepeats(seen + BatchIds(res.events)) ==> printed' == c.printed + BatchIds(res.events)
    ensures var origin := if c.started then c.origin else Origin(epoch, saved, r');
            Following(r', epoch, q, saved, Client(Some(res.cursor), printed', true, c.flagged || o.truncated, origin, o.pos),
                      seen + BatchIds(res.events))
  {
    hide UpToDate, Reads, Renders, NoRepeats, BatchIds, Elements, SeqOf, CursorStr;
    CursorAndEnd(r', epoch, name, c.cursor, floor, cap, q, o, res);
    if !c.flagged && !o.truncated {
      if c.started {
        UpToDateStable(r, r', q, c.origin, c.p, seen, c.printed);
        UpToDateAdvances(r', epoch, name, q, c.origin, c.p, seen, c.printed, floor, cap, o, res, printed');
      } else {
        assert [] + BatchIds(res.events) == BatchIds(res.events);
        UpToDateStarts(r', epoch, name, q, saved, floor, cap, o, res, printed');
      }
    }
  }

  ghost predicate Flagged(run: seq<Poll>) {
    exists k :: 0 <= k < |run| && run[k].out.truncated
  }

  /** The client after the polls of `run`. */
  ghost function ClientAfter(epoch: nat, saved: Option<string>, cursor: Option<string>, printed: seq<string>, run: seq<Poll>): Client {
    if run == [] then Client(cursor, printed, false, false, 0, 0)
    else Client(cursor, printed, true, Flagged(run), Origin(epoch, saved, run[0].ring), run[|run| - 1].out.pos)
  }

  /** The polls so far, each answered from a ring on the way to the present one. */
  ghost predicate PolledSoFar(r: Ring, epoch: nat, q: Query, saved: Option<string>, cursor: Option<string>, run: seq<Poll>) {
    && PollRun(epoch, q, saved, run)
    && (run != [] ==> Evolves(run[|run| - 1].ring, r))
    && cursor == if run == [] then saved else Some(CursorStr(epoch, run[|run| - 1].out.pos))
  }

  lemma OneMorePoll(r: Ring, r': Ring, epoch: nat, q: Query, saved: Option<string>, cursor: Option<string>, run: seq<Poll>, x: Poll)
    requires PolledSoFar(r, epoch, q, saved, cursor, run) && Evolves(r, r') && r'.Valid() && x.ring == r'
    requires Reads(r', epoch, cursor, x.floor, x.cap, q, x.out)
    ensures PolledSoFar(r', epoch, q, saved, Some(CursorStr(epoch, x.out.pos)), run + [x])
    ensures Flagged(run + [x]) <==> Flagged(run) || x.out.truncated
  {
    hide Reads, CursorStr, PollRun, Flagged;
    if run != [] {
      assert Evolves(run[|run| - 1].ring, r');
    }
    LongerRun(epoch, q, saved, cursor, run, x);
    FlaggedMore(run, x);
  }

  lemma LongerRun(epoch: nat, q: Query, saved: Option<string>, cursor: Option<string>, run: seq<Poll>, x: Poll)
    requires PollRun(epoch, q, saved, run) && x.ring.Valid()
    requires run != [] ==> Evolves(run[|run| - 1].ring, x.ring)
    requires cursor == if run == [] then saved else Some(CursorStr(epoch, run[|run| - 1].out.pos))
    requires Reads(x.ring, epoch, cursor, x.floor, x.cap, q, x.out)
    ensures PollRun(epoch, q, saved, run + [x])
  {
    hide Reads, CursorStr, Evolves, Ring.Valid, RequestAt;
    var all := run + [x];
    forall i | 0 <= i < |all|
      ensures all[i].ring.Valid() && (i > 0 ==> Evolves(all[i - 1].ring, all[i].ring))
      ensures Reads(all[i].ring, epoch, RequestAt(epoch, saved, all, i), all[i].floor, all[i].cap, q, all[i].out)
    {
      RequestInLonger(epoch, saved, cursor, run, x, i);
      if i < |run| {
        assert all[i] == run[i] && (i > 0 ==> all[i - 1] == run[i - 1]);
      } else {
        assert all[i] == x && (i > 0 ==> all[i - 1] == run[i - 1]);
      }
    }
  }

  lemma RequestInLonger(epoch: nat, saved: Option<string>, cursor: Option<string>, run: seq<Poll>, x: Poll, i: nat)
    requires cursor == if run == [] then saved else Some(CursorStr(epoch, run[|run| - 1].out.pos))
    requires i <= |run|
    ensures RequestAt(epoch, saved, run + [x], i) == if i < |run| then RequestAt(epoch, saved, run, i) else cursor
  {
  }

  lemma FlaggedMore(run: seq<Poll>, x: Poll)
    ensures Flagged(run + [x]) <==> Flagged(run) || x.out.truncated
  {
    var all := run + [x];
    assert all[|run|] == x && forall k :: 0 <= k < |run| ==> all[k] == run[k];
  }

  class Poller {
    const buf: EventBuffer
    const name: string
    const q: Query
    const saved: Option<string>
    const dedup: LruSet
    var cursor: Option<string>
    var printed: seq<string>
    ghost var run: seq<Poll>
    /** The times of the polls. */
    ghost var clock: seq<int>

    /** While no reply was flagged, what was received and printed is the filtered log from the first to the latest cursor. */
    ghost predicate Inv()
      reads this, buf, dedup
    {
      && buf.Valid() && dedup.Valid()
      && PolledSoFar(buf.RingOf(name), buf.epoch, q, saved, cursor, run)
      && Following(buf.RingOf(name), buf.epoch, q, saved, ClientAfter(buf.epoch, saved, cursor, printed, run), dedup.history)
      && Elements(printed) == Elements(dedup.history)
      && |clock| == |run| && dedup.cap == 4096
    }

    constructor (buf: EventBuffer, name: string, q: Query, saved: Option<string>)
      requires buf.Valid()
      ensures Inv() && run == [] && printed == [] && fresh(dedup)
      ensures this.buf == buf && this.name == name && this.q == q && this.saved == saved
    {
      this.buf, this.name, this.q, this.saved := buf, name, q, saved;
      cursor, printed := saved, [];
      dedup := new LruSet(DEDUP_CAPACITY);
      run, clock := [], [];
    }

    /** One request and its reply; others use the buffer in between. */
    method Ask(maxEvents: Option<nat>, maxAgeMs: Option<nat>) returns (res: ReadResult, ghost o: Outcome, ghost now: int)
      requires buf.Valid()
      modifies buf
      ensures buf.Valid() && Evolves(old(buf.RingOf(name)), buf.RingOf(name))
      ensures Reads(buf.RingOf(name), buf.epoch, cursor, FloorOf(now, maxAgeMs), maxEvents, q, o)
      ensures Renders(buf.RingOf(name), buf.epoch, name, o, res)
    {
      hide EventBuffer.Valid, EventBuffer.RingOf, Reads, Renders;
      var others: nat := *;
      buf.Interfere(others);
      var time: int := *;
      now := time;
      res, o := buf.Read(time, name, cursor, maxAgeMs, maxEvents, q);
    }

    /** One poll: read from the cursor, print what is new, take the returned cursor. */
    method PollOnce(maxEvents: Option<nat>, maxAgeMs: Option<nat>) returns (hasMore: bool, ghost poll: Poll, ghost now: int)
      requires Inv()
      modifies this, buf, dedup
      ensures Inv() && Evolves(old(buf.RingOf(name)), buf.RingOf(name))
      ensures run == old(run) + [poll] && poll.ring == buf.RingOf(name) && poll.cap == maxEvents && poll.out.hasMore == hasMore
      ensures poll.floor == FloorOf(now, maxAgeMs) && clock == old(clock) + [now]
      ensures !hasMore ==> poll.out.pos == buf.RingOf(name).Head()
      ensures forall i :: 0 <= i < |poll.out.picked| ==> poll.ring.Has(poll.out.picked[i])
      ensures var ids := IdsAt(poll.ring, poll.out.picked);
        dedup.history == old(dedup.history) + ids && printed == old(printed) + Unsuppressed(old(dedup.history), ids, 4096)
    {
      hide Following, PolledSoFar, EventBuffer.Valid, EventBuffer.RingOf, LruSet.Valid, Reads, Renders, Elements, NoRepeats,
           FloorOf, BatchIds, Evolves, Origin, Flagged, Unsuppressed, IdsAt;
      ghost var r0 := buf.RingOf(name);
      var res;
      ghost var o;
      res, o, now := Ask(maxEvents, maxAgeMs);
      ghost var floor := FloorOf(now, maxAgeMs);
      ghost var r := buf.RingOf(name);
      ghost var c0, seen0 := ClientAfter(buf.epoch, saved, cursor, printed, run), dedup.history;
      printed := PrintBatch(res.events, dedup, printed);
      poll := Poll(r, floor, maxEvents, o);
      OneMorePoll(r0, r, buf.epoch, q, saved, cursor, run, poll);
      FollowingAfterPoll(r0, r, buf.epoch, name, q, saved, c0, seen0, floor, maxEvents, o, res, printed);
      CursorAndEnd(r, buf.epoch, name, cursor, floor, maxEvents, q, o, res);
      cursor := Some(res.cursor);
      hasMore := res.hasMore;
      run, clock := run + [poll], clock + [now];
      NotFlaggedAtFirst();
      BatchIdsArePicked(r, buf.epoch, name, o, res);
    }

    /** The polling loop: drain while there is more; without `follow`, stop at the head. */
    method CmdPoll(follow: bool, maxEvents: Option<nat>, maxAgeMs: Option<nat>, rounds: nat) returns (done: bool)
      requires Inv()
      modifies this, buf, dedup
      ensures Inv() && Evolves(old(buf.RingOf(name)), buf.RingOf(name))
      ensures old(run) <= run && old(clock) <= clock && |run| <= |old(run)| + rounds
      ensures forall k :: |old(run)| <= k < |run| ==> run[k].floor == FloorOf(clock[k], maxAgeMs) && run[k].cap == maxEvents
      ensures if done then !follow && |old(run)| < |run| && run[|run| - 1].out.pos == buf.RingOf(name).Head()
              else |run| == |old(run)| + rounds
      ensures forall k :: |old(run)| <= k < |run| && !follow && !run[k].out.hasMore ==> done && k == |run| - 1
    {
      hide Following, PolledSoFar, EventBuffer.Valid, EventBuffer.RingOf, LruSet.Valid, FloorOf, Unsuppressed, IdsAt;
      for i := 0 to rounds
        invariant Inv() && Evolves(old(buf.RingOf(name)), buf.RingOf(name))
        invariant old(run) <= run && old(clock) <= clock && |run| == |clock| == |old(run)| + i
        invariant forall k :: |old(run)| <= k < |run| ==> run[k].floor == FloorOf(clock[k], maxAgeMs) && run[k].cap == maxEvents
        invariant forall k :: |old(run)| <= k < |run| ==> follow || run[k].out.hasMore
      {
        var hasMore;
        ghost var poll, now;
        hasMore, poll, now := PollOnce(maxEvents, maxAgeMs);
        if hasMore {
          continue;
        }
        if !follow {
          return true;
        }
      }
      done := false;
    }
  }

  lemma NotFlaggedAtFirst()
    ensures !Flagged([])
  {
  }

  /** What a run of the client amounts to: with distinct event ids and no flagged reply, it printed exactly the filtered
      log between its first and its latest cursor. */
  lemma PrintedExactly(r: Ring, epoch: nat, q: Query, saved: Option<string>, cursor: Option<string>, printed: seq<string>,
                       run: seq<Poll>, seen: seq<string>)
    requires run != [] && Following(r, epoch, q, saved, ClientAfter(epoch, saved, cursor, printed, run), seen)
    requires DistinctIds(r) && !Flagged(run)
    ensures var picked := Select(r, None, q, Origin(epoch, saved, run[0].ring), run[|run| - 1].out.pos);
      |printed| == |picked| && forall i :: 0 <= i < |picked| ==> r.Has(picked[i]) && printed[i] == r.At(picked[i]).eventId
  {
    SelectedIds(r, q, Origin(epoch, saved, run[0].ring), run[|run| - 1].out.pos);
  }
}
