/** What cursor-based reads guarantee: one read, draining a backlog page by page, and whole polling runs. */
module Reading {
  import opened Cursors
  import opened Log

  /** A read's outcome is determined by the ring, the request and the epoch. */
  lemma OutcomeUnique(r: Ring, epoch: nat, cursor: Option<string>, floor: Option<int>, cap: Option<nat>, q: Query,
                      o: Outcome, o': Outcome)
    requires r.Valid()
    requires Reads(r, epoch, cursor, floor, cap, q, o) && Reads(r, epoch, cursor, floor, cap, q, o')
    ensures o == o'
  {
    if cursor.Some? {
      var start := StartAfter(r, epoch, cursor.value).0;
      if o.pos < o'.pos {
        FurtherPicksMore(r, floor, q, start, o.pos, o'.pos);
      } else if o'.pos < o.pos {
        FurtherPicksMore(r, floor, q, start, o'.pos, o.pos);
      }
    }
  }

  /** A cursor that does not parse, or that is another process's, starts from the oldest retained event: the reply is
      flagged, and of what is retained it leaves nothing out that is wanted. */
  lemma ForeignCursor(r: Ring, epoch: nat, c: string, floor: Option<int>, cap: Option<nat>, q: Query, o: Outcome)
    requires r.Valid() && Reads(r, epoch, Some(c), floor, cap, q, o)
    requires ParseCursor(c).None? || ParseCursor(c).value.0 != epoch
    ensures o.truncated && r.evicted <= o.pos <= r.Head()
    ensures o.picked == Select(r, floor, q, r.evicted, o.pos)
    ensures forall s :: r.evicted < s <= o.pos && r.Wanted(floor, q, s) ==> s in o.picked
    ensures cap.None? ==> o.pos == r.Head()
  {
    SelectMembers(r, floor, q, r.evicted, o.pos);
  }

  /** An own cursor past the head is flagged, gets nothing, and comes back to the head. */
  lemma FutureCursor(r: Ring, epoch: nat, s: nat, floor: Option<int>, cap: Option<nat>, q: Query, o: Outcome)
    requires r.Valid() && epoch < U64_LIMIT && r.Head() < s < U64_LIMIT
    requires Reads(r, epoch, Some(CursorStr(epoch, s)), floor, cap, q, o)
    ensures o == Outcome([], r.Head(), true, false)
  {
    hide CursorStr, ParseCursor;
    CursorRoundTrip(epoch, s);
  }

  /** An own cursor resumes right after its position, or after what was evicted beyond it. */
  lemma OwnCursor(r: Ring, epoch: nat, s: nat, floor: Option<int>, cap: Option<nat>, q: Query, o: Outcome)
    requires r.Valid() && epoch < U64_LIMIT && s <= r.Head()
    requires Reads(r, epoch, Some(CursorStr(epoch, s)), floor, cap, q, o)
    ensures s <= o.pos <= r.Head() && r.evicted <= o.pos
    ensures forall t :: t in o.picked <==> (s < t <= o.pos && r.evicted < t && r.Wanted(floor, q, t))
    ensures StrictlyIncreasing(o.picked) && (cap.None? ==> o.pos == r.Head())
  {
    hide CursorStr, ParseCursor;
    CursorRoundTrip(epoch, s);
    SelectMembers(r, floor, q, if s < r.evicted then r.evicted else s, o.pos);
  }

  /** Without a cursor nothing is read: the reply is the present head. */
  lemma NoCursor(r: Ring, epoch: nat, floor: Option<int>, cap: Option<nat>, q: Query, o: Outcome)
    requires r.Valid() && Reads(r, epoch, None, floor, cap, q, o)
    ensures o.picked == [] && o.pos == |r.log| && !o.truncated && !o.hasMore
  {
  }

  lemma FurtherPicksMore(r: Ring, floor: Option<int>, q: Query, start: nat, lo: nat, hi: nat)
    requires start <= lo < hi && r.Wanted(floor, q, lo + 1)
    ensures |Select(r, floor, q, start, hi)| > |Select(r, floor, q, start, lo)|
  {
    SelectSplit(r, floor, q, start, lo, hi);
    SelectSplit(r, floor, q, lo, lo + 1, hi);
    assert Select(r, floor, q, lo, lo + 1) == [lo + 1];
  }

  /** For an own-epoch cursor that is not past the head, a reply is flagged exactly when an event after the cursor
      was evicted or an event up to the returned position was cut off by the age floor. */
  lemma TruncatedIff(r: Ring, epoch: nat, s: nat, floor: Option<int>, cap: Option<nat>, q: Query, o: Outcome)
    requires r.Valid() && epoch < U64_LIMIT && s <= r.Head()
    requires Reads(r, epoch, Some(CursorStr(epoch, s)), floor, cap, q, o)
    ensures o.truncated <==> s < r.evicted || exists t :: s < t <= o.pos && r.evicted < t && r.Below(floor, t)
    ensures s <= o.pos && r.evicted <= o.pos
  {
    CursorRoundTrip(epoch, s);
  }

  /** An own-epoch reply that is not flagged starts right at the cursor and leaves nothing out. */
  lemma UntruncatedIsExact(r: Ring, epoch: nat, s: nat, floor: Option<int>, cap: Option<nat>, q: Query, o: Outcome)
    requires r.Valid() && epoch < U64_LIMIT && s <= r.Head()
    requires Reads(r, epoch, Some(CursorStr(epoch, s)), floor, cap, q, o) && !o.truncated
    ensures s <= o.pos <= r.Head() && o.picked == Select(r, None, q, s, o.pos)
  {
    CursorRoundTrip(epoch, s);
    FloorIrrelevant(r, floor, q, s, o.pos);
  }

  lemma {:induction false} FloorIrrelevant(r: Ring, floor: Option<int>, q: Query, lo: nat, hi: nat)
    requires forall t :: lo < t <= hi ==> !r.Below(floor, t)
    ensures Select(r, floor, q, lo, hi) == Select(r, None, q, lo, hi)
    decreases hi
  {
    if hi > lo {
      FloorIrrelevant(r, floor, q, lo, hi - 1);
    }
  }

  /** Whatever the original cursor string was, the cursor a read returned can be read from again without truncation. */
  lemma RereadIsClean(r: Ring, epoch: nat, cursor: Option<string>, floor: Option<int>, cap: Option<nat>, q: Query, o: Outcome,
                      cap': Option<nat>, q': Query, o': Outcome)
    requires r.Valid() && epoch < U64_LIMIT
    requires Reads(r, epoch, cursor, floor, cap, q, o)
    requires Reads(r, epoch, Some(CursorStr(epoch, o.pos)), None, cap', q', o')
    ensures !o'.truncated && o.pos <= o'.pos
  {
    CursorRoundTrip(epoch, o.pos);
  }

  /** The cursor page `i` is asked for with: the one the page before returned. */
  function PageCursor(epoch: nat, cursor: string, pages: seq<Outcome>, i: nat): string
    requires i < |pages|
  {
    if i == 0 then cursor else CursorStr(epoch, pages[i - 1].pos)
  }

  /** Successive pages of an unchanging ring: every page starts from the cursor of the one before,
      and all but the last said that there is more. */
  ghost predicate Pages(r: Ring, epoch: nat, cursor: string, k: nat, q: Query, pages: seq<Outcome>)
    requires r.Valid()
  {
    && pages != []
    && (forall i :: 0 <= i < |pages| ==>
          Reads(r, epoch, Some(PageCursor(epoch, cursor, pages, i)), None, Some(k), q, pages[i]))
    && forall i :: 0 <= i < |pages| - 1 ==> pages[i].hasMore
  }

  function Concat(pages: seq<Outcome>): seq<nat> {
    if pages == [] then [] else Concat(pages[..|pages| - 1]) + pages[|pages| - 1].picked
  }

  ghost predicate SoFar(r: Ring, start: nat, k: nat, q: Query, pages: seq<Outcome>, last: Outcome) {
    && start <= last.pos <= r.Head()
    && Concat(pages) == Select(r, None, q, start, last.pos)
    && |Concat(pages)| == k * (|pages| - 1) + |last.picked|
    && (|pages| > 1 ==> last.picked != [])
    && |last.picked| <= k
  }

  lemma FirstPage(r: Ring, epoch: nat, cursor: string, k: nat, q: Query, pages: seq<Outcome>)
    requires r.Valid() && Pages(r, epoch, cursor, k, q, pages) && |pages| == 1
    ensures SoFar(r, StartAfter(r, epoch, cursor).0, k, q, pages, pages[0])
  {
    assert Reads(r, epoch, Some(PageCursor(epoch, cursor, pages, 0)), None, Some(k), q, pages[0]);
    assert Concat(pages[..0]) == [];
  }

  lemma {:induction false} PagesSoFar(r: Ring, epoch: nat, cursor: string, k: nat, q: Query, pages: seq<Outcome>)
    requires r.Valid() && epoch < U64_LIMIT && k >= 1 && Pages(r, epoch, cursor, k, q, pages)
    ensures SoFar(r, StartAfter(r, epoch, cursor).0, k, q, pages, pages[|pages| - 1])
    decreases |pages|
  {
    var n := |pages|;
    if n == 1 {
      FirstPage(r, epoch, cursor, k, q, pages);
    } else {
      FrontPages(r, epoch, cursor, k, q, pages);
      PagesSoFar(r, epoch, cursor, k, q, pages[..n - 1]);
      assert pages[..n - 1][n - 2] == pages[n - 2];
      NextPage(r, epoch, StartAfter(r, epoch, cursor).0, k, q, pages);
    }
  }

  lemma NextPage(r: Ring, epoch: nat, start: nat, k: nat, q: Query, pages: seq<Outcome>)
    requires r.Valid() && epoch < U64_LIMIT && k >= 1 && |pages| > 1
    requires var front, prev := pages[..|pages| - 1], pages[|pages| - 2];
             && SoFar(r, start, k, q, front, prev)
             && prev.hasMore && prev.pos < r.Head() && r.Wanted(None, q, prev.pos + 1)
             && r.evicted <= prev.pos && |prev.picked| == k
             && Reads(r, epoch, Some(CursorStr(epoch, prev.pos)), None, Some(k), q, pages[|pages| - 1])
    ensures SoFar(r, start, k, q, pages, pages[|pages| - 1])
  {
    var prev, last := pages[|pages| - 2], pages[|pages| - 1];
    FollowingPage(r, epoch, k, q, prev, last);
    SelectSplit(r, None, q, start, prev.pos, last.pos);
    MulStep(k, |pages| - 1);
  }

  lemma MulStep(k: nat, n: nat)
    requires n >= 1
    ensures k * n == k * (n - 1) + k
  {
  }

  lemma FrontPages(r: Ring, epoch: nat, cursor: string, k: nat, q: Query, pages: seq<Outcome>)
    requires r.Valid() && epoch < U64_LIMIT && k >= 1 && Pages(r, epoch, cursor, k, q, pages) && |pages| > 1
    ensures var front, prev, last := pages[..|pages| - 1], pages[|pages| - 2], pages[|pages| - 1];
            && Pages(r, epoch, cursor, k, q, front)
            && prev.hasMore && prev.pos < r.Head() && r.Wanted(None, q, prev.pos + 1)
            && r.evicted <= prev.pos && |prev.picked| == k
            && Reads(r, epoch, Some(CursorStr(epoch, prev.pos)), None, Some(k), q, last)
  {
    var front, prev, n := pages[..|pages| - 1], pages[|pages| - 2], |pages|;
    forall i | 0 <= i < |front|
      ensures Reads(r, epoch, Some(PageCursor(epoch, cursor, front, i)), None, Some(k), q, front[i])
    {
      assert PageCursor(epoch, cursor, front, i) == PageCursor(epoch, cursor, pages, i);
    }
    assert Reads(r, epoch, Some(PageCursor(epoch, cursor, pages, n - 2)), None, Some(k), q, prev);
    assert PageCursor(epoch, cursor, pages, n - 1) == CursorStr(epoch, prev.pos);
  }

  lemma FollowingPage(r: Ring, epoch: nat, k: nat, q: Query, prev: Outcome, next: Outcome)
    requires r.Valid() && epoch < U64_LIMIT && k >= 1
    requires prev.hasMore && prev.pos < r.Head() && r.Wanted(None, q, prev.pos + 1)
    requires Reads(r, epoch, Some(CursorStr(epoch, prev.pos)), None, Some(k), q, next)
    requires r.evicted <= prev.pos
    ensures prev.pos < next.pos && next.picked == Select(r, None, q, prev.pos, next.pos)
    ensures next.picked != [] && |next.picked| <= k
  {
    CursorRoundTrip(epoch, prev.pos);
    if prev.pos < next.pos {
      FurtherPicksMore(r, None, q, prev.pos, prev.pos, next.pos);
    }
  }

  /** `n` is max(1, ceil(matches / k)). */
  predicate IsRounds(matches: nat, k: nat, n: nat) {
    n >= 1 && (n > 1 ==> k * (n - 1) < matches) && matches <= k * n
  }

  /** Draining with cap k stops after max(1, ceil(matches / k)) pages, which together are the uncapped read;
      every page before that says that there is more. */
  lemma Pagination(r: Ring, epoch: nat, cursor: string, k: nat, q: Query, pages: seq<Outcome>, whole: Outcome)
    requires r.Valid() && epoch < U64_LIMIT && k >= 1 && Pages(r, epoch, cursor, k, q, pages)
    requires Reads(r, epoch, Some(cursor), None, None, q, whole)
    ensures pages[|pages| - 1].hasMore <==> k * |pages| < |whole.picked|
    ensures !pages[|pages| - 1].hasMore ==>
              IsRounds(|whole.picked|, k, |pages|) && Concat(pages) == whole.picked && pages[|pages| - 1].pos == whole.pos
  {
    PagesSoFar(r, epoch, cursor, k, q, pages);
    var start, last, n := StartAfter(r, epoch, cursor).0, pages[|pages| - 1], |pages|;
    assert k * (n - 1) + k == k * n;
    if last.hasMore {
      FurtherPicksMore(r, None, q, start, last.pos, r.Head());
    }
  }

  /** One round of a polling client: the ring as the reply found it, the request's floor and cap, and the reply. */
  datatype Poll = Poll(ring: Ring, floor: Option<int>, cap: Option<nat>, out: Outcome)

  /** The cursor the client sends with poll `i`: the one it got from the poll before. */
  function RequestAt(epoch: nat, first: Option<string>, run: seq<Poll>, i: nat): Option<string>
    requires i < |run|
  {
    if i == 0 then first else Some(CursorStr(epoch, run[i - 1].out.pos))
  }

  /** A client that feeds back each returned cursor; between two polls anything may be emitted, evicted or read. */
  ghost predicate PollRun(epoch: nat, q: Query, first: Option<string>, run: seq<Poll>) {
    && (forall i :: 0 <= i < |run| ==> run[i].ring.Valid())
    && (forall i :: 0 < i < |run| ==> Evolves(run[i - 1].ring, run[i].ring))
    && forall i :: 0 <= i < |run| ==>
         Reads(run[i].ring, epoch, RequestAt(epoch, first, run, i), run[i].floor, run[i].cap, q, run[i].out)
  }

  function Received(run: seq<Poll>): seq<nat> {
    if run == [] then [] else Received(run[..|run| - 1]) + run[|run| - 1].out.picked
  }

  /** The position the client's first request stood for. */
  function Origin(epoch: nat, first: Option<string>, r: Ring): nat {
    match first case None => r.Head() case Some(c) => SeqOf(c)
  }

  /** A first reply that is not flagged starts at its origin and leaves nothing out. */
  lemma FirstReply(r: Ring, epoch: nat, first: Option<string>, floor: Option<int>, cap: Option<nat>, q: Query, o: Outcome)
    requires r.Valid() && Reads(r, epoch, first, floor, cap, q, o) && !o.truncated
    ensures var origin := Origin(epoch, first, r);
            origin <= o.pos <= r.Head() && o.picked == Select(r, None, q, origin, o.pos)
  {
    if first.Some? {
      assert StartAfter(r, epoch, first.value) == (SeqOf(first.value), false);
      FloorIrrelevant(r, floor, q, SeqOf(first.value), o.pos);
    }
  }

  lemma FirstOfRun(epoch: nat, q: Query, first: Option<string>, run: seq<Poll>)
    requires PollRun(epoch, q, first, run) && run != []
    ensures run[0].ring.Valid() && Reads(run[0].ring, epoch, first, run[0].floor, run[0].cap, q, run[0].out)
  {
    hide Reads;
    assert RequestAt(epoch, first, run, 0) == first;
  }

  lemma FrontRun(epoch: nat, q: Query, first: Option<string>, run: seq<Poll>)
    requires PollRun(epoch, q, first, run) && |run| > 1
    ensures PollRun(epoch, q, first, run[..|run| - 1])
    ensures var prev, last := run[|run| - 2], run[|run| - 1];
            && prev.ring.Valid() && last.ring.Valid() && Evolves(prev.ring, last.ring)
            && Reads(last.ring, epoch, Some(CursorStr(epoch, prev.out.pos)), last.floor, last.cap, q, last.out)
  {
    hide Reads;
    var front := run[..|run| - 1];
    forall i | 0 <= i < |front|
      ensures Reads(front[i].ring, epoch, RequestAt(epoch, first, front, i), front[i].floor, front[i].cap, q, front[i].out)
    {
      assert RequestAt(epoch, first, front, i) == RequestAt(epoch, first, run, i);
    }
    assert RequestAt(epoch, first, run, |run| - 1) == Some(CursorStr(epoch, run[|run| - 2].out.pos));
  }

  /** Whole-run polling: while no reply is flagged, the client receives exactly the filtered log between its first
      and latest cursor, each event once and in order. */
  lemma {:induction false} WholeRunPolling(epoch: nat, q: Query, first: Option<string>, run: seq<Poll>)
    requires epoch < U64_LIMIT && run != [] && PollRun(epoch, q, first, run)
    requires forall i :: 0 <= i < |run| ==> !run[i].out.truncated
    ensures var last := run[|run| - 1]; var origin := Origin(epoch, first, run[0].ring);
            origin <= last.out.pos <= last.ring.Head() && Received(run) == Select(last.ring, None, q, origin, last.out.pos)
  {
    hide Reads, PollRun, CursorStr, SeqOf, Select, Evolves, Origin;
    var n := |run|;
    if n == 1 {
      assert Received(run[..0]) == [];
      FirstOfRun(epoch, q, first, run);
      FirstReply(run[0].ring, epoch, first, run[0].floor, run[0].cap, q, run[0].out);
    } else {
      FrontRun(epoch, q, first, run);
      WholeRunPolling(epoch, q, first, run[..n - 1]);
      assert run[..n - 1][n - 2] == run[n - 2];
      NextReply(run[n - 2].ring, run[n - 1].ring, epoch, q, Origin(epoch, first, run[0].ring), run[n - 2].out.pos,
                run[n - 1].floor, run[n - 1].cap, run[n - 1].out);
    }
  }

  lemma NextReply(r: Ring, r': Ring, epoch: nat, q: Query, origin: nat, p: nat, floor: Option<int>, cap: Option<nat>, o: Outcome)
    requires r.Valid() && r'.Valid() && epoch < U64_LIMIT && Evolves(r, r') && origin <= p <= r.Head()
    requires Reads(r', epoch, Some(CursorStr(epoch, p)), floor, cap, q, o) && !o.truncated
    ensures p <= o.pos <= r'.Head()
    ensures Select(r', None, q, origin, o.pos) == Select(r, None, q, origin, p) + o.picked
  {
    UntruncatedIsExact(r', epoch, p, floor, cap, q, o);
    SelectStable(r, r', None, q, origin, p);
    SelectSplit(r', None, q, origin, p, o.pos);
  }
}
