/** The abstract view of one event type: the unbounded log of everything emitted, and how much of it was evicted. */
module Log {
  import opened Cursors
  import opened Json

  datatype Event = Event(eventId: string, timestamp: int, data: Value)

  /** The subscription's params and the event type's filter; both are needed for filtering. */
  datatype Query = Query(params: Option<Value>, filter: Option<(Value, Value) -> bool>) {
    predicate Matches(data: Value) {
      params.Some? && filter.Some? ==> filter.value(params.value, data)
    }
  }

  /** `log[i]` is the event with seq `i + 1`; the first `evicted` of them are no longer retained. */
  datatype Ring = Ring(log: seq<Event>, evicted: nat) {
    predicate Valid() {
      evicted <= |log| < U64_LIMIT
    }

    function Head(): nat {
      |log|
    }

    predicate Has(s: nat) {
      1 <= s <= |log|
    }

    function At(s: nat): Event
      requires Has(s)
    {
      log[s - 1]
    }

    /** Event `s` exists and passes the query's filter. */
    predicate Matching(q: Query, s: nat) {
      Has(s) && q.Matches(log[s - 1].data)
    }

    predicate Below(floor: Option<int>, s: nat) {
      floor.Some? && Has(s) && log[s - 1].timestamp < floor.value
    }

    /** Event `s` is what a read with this filter and age floor is after. */
    predicate Wanted(floor: Option<int>, q: Query, s: nat) {
      Matching(q, s) && !Below(floor, s)
    }
  }

  /** No two events of the log share an id. */
  predicate DistinctIds(r: Ring) {
    forall i, j :: 0 <= i < j < |r.log| ==> r.log[i].eventId != r.log[j].eventId
  }

  /** What any emits, evictions and other reads can do to a ring. */
  predicate Evolves(r: Ring, r': Ring) {
    r.log <= r'.log && r.evicted <= r'.evicted <= |r'.log| < U64_LIMIT
  }

  /** The seqs in `(lo, hi]` that a read is after, in order. */
  function Select(r: Ring, floor: Option<int>, q: Query, lo: nat, hi: nat): seq<nat>
    decreases hi
  {
    if hi <= lo then []
    else Select(r, floor, q, lo, hi - 1) + (if r.Wanted(floor, q, hi) then [hi] else [])
  }

  predicate StrictlyIncreasing(s: seq<nat>) {
    forall i, j :: 0 <= i < j < |s| ==> s[i] < s[j]
  }

  lemma {:induction false} SelectMembers(r: Ring, floor: Option<int>, q: Query, lo: nat, hi: nat)
    ensures forall s :: s in Select(r, floor, q, lo, hi) <==> lo < s <= hi && r.Wanted(floor, q, s)
    ensures StrictlyIncreasing(Select(r, floor, q, lo, hi))
    decreases hi
  {
    if hi > lo {
      SelectMembers(r, floor, q, lo, hi - 1);
      var front := Select(r, floor, q, lo, hi - 1);
      forall i | 0 <= i < |front| ensures front[i] < hi {
        assert front[i] in front;
      }
    }
  }

  lemma {:induction false} SelectSplit(r: Ring, floor: Option<int>, q: Query, lo: nat, mid: nat, hi: nat)
    requires lo <= mid <= hi
    ensures Select(r, floor, q, lo, hi) == Select(r, floor, q, lo, mid) + Select(r, floor, q, mid, hi)
    decreases hi
  {
    if hi > mid {
      SelectSplit(r, floor, q, lo, mid, hi - 1);
    }
  }

  /** What has been logged does not change: a later ring selects the same events below the old head. */
  lemma {:induction false} SelectStable(r: Ring, r': Ring, floor: Option<int>, q: Query, lo: nat, hi: nat)
    requires Evolves(r, r') && hi <= r.Head()
    ensures Select(r', floor, q, lo, hi) == Select(r, floor, q, lo, hi)
    decreases hi
  {
    if hi > lo {
      SelectStable(r, r', floor, q, lo, hi - 1);
    }
  }

  /** What a read reports, by seq: the events picked, the position returned, and the two flags. */
  datatype Outcome = Outcome(picked: seq<nat>, pos: nat, truncated: bool, hasMore: bool)

  /** Where a read with a non-null cursor starts, and whether that already is a truncation. */
  function StartAfter(r: Ring, epoch: nat, cursor: string): (nat, bool)
    requires r.Valid()
  {
    match ParseCursor(cursor)
    case Some((e, s)) =>
      if e != epoch then (r.evicted, true)
      else if s > r.Head() then (r.Head(), true)
      else if s < r.evicted then (r.evicted, true)
      else (s, false)
    case None => (r.evicted, true)
  }

  ghost predicate ScanFrom(r: Ring, start: nat, gap: bool, floor: Option<int>, cap: Option<nat>, q: Query, o: Outcome) {
    && start <= o.pos <= r.Head()
    && o.picked == Select(r, floor, q, start, o.pos)
    && (o.truncated <==> gap || exists s :: start < s <= o.pos && r.Below(floor, s))
    && (o.hasMore <==> o.pos < r.Head() && r.Wanted(floor, q, o.pos + 1))
    && (o.hasMore ==> cap.Some? && |o.picked| == cap.value)
    && (!o.hasMore ==> o.pos == r.Head())
    && (cap.Some? ==> |o.picked| <= cap.value)
  }

  /** The cursor lifecycle: what a read of ring `r` may report. */
  ghost predicate Reads(r: Ring, epoch: nat, cursor: Option<string>, floor: Option<int>, cap: Option<nat>, q: Query, o: Outcome)
    requires r.Valid()
  {
    match cursor
    case None => o == Outcome([], r.Head(), false, false)
    case Some(c) =>
      var (start, gap) := StartAfter(r, epoch, c);
      ScanFrom(r, start, gap, floor, cap, q, o)
  }
}
