/** The per-event-type ring buffer with epoch-tagged cursors. */
module Buffer {
  import opened Cursors
  import opened Json
  import opened Log

  /** Times are nanoseconds since the Unix epoch; this is the earliest instant a timestamp can hold. */
  const MIN_UTC: int := -8_334_601_315_200_000_000_000
  const I64_MAX: nat := 0x7FFF_FFFF_FFFF_FFFF
  const NANOS_PER_MILLI: nat := 1_000_000

  datatype BufferConfig = BufferConfig(maxEventsPerType: nat, maxAge: Option<int>)
  datatype Stored = Stored(seqNo: nat, eventId: string, timestamp: int, data: Value)
  datatype TypeState = TypeState(lastSeq: nat, entries: seq<Stored>)
  datatype EmittedEvent = EmittedEvent(name: string, eventId: string, timestamp: int, data: Value)
  datatype EventOccurrence = EventOccurrence(eventId: string, name: string, timestamp: int, data: Value, cursor: Option<string>)
  datatype ReadResult = ReadResult(events: seq<EventOccurrence>, cursor: string, truncated: bool, hasMore: bool)

  /** `now - d`, clamped at the earliest instant. */
  function SubClamped(now: int, d: int): int {
    if now - d < MIN_UTC then MIN_UTC else now - d
  }

  function FloorFromMaxAgeMs(now: int, ms: nat): int {
    SubClamped(now, (if ms > I64_MAX then I64_MAX else ms) * NANOS_PER_MILLI)
  }

  function FloorOf(now: int, maxAgeMs: Option<nat>): Option<int> {
    match maxAgeMs case None => None case Some(ms) => Some(FloorFromMaxAgeMs(now, ms))
  }

  /** Whatever the request asks for, an event at or after the earliest instant inside the window is never cut off. */
  lemma FloorKeepsWindow(now: int, ms: nat, t: int)
    requires MIN_UTC <= t && MIN_UTC <= now
    ensures FloorFromMaxAgeMs(now, ms) <= now
    ensures ms <= I64_MAX && t >= now - ms * NANOS_PER_MILLI ==> t >= FloorFromMaxAgeMs(now, ms)
    ensures ms >= I64_MAX && now - I64_MAX * NANOS_PER_MILLI <= MIN_UTC ==> t >= FloorFromMaxAgeMs(now, ms)
  {
  }

  /** A time is further back than the age limit, if there is one. */
  predicate Older(t: int, now: int, ageMs: Option<nat>) {
    ageMs.Some? && t + (if ageMs.value > 9_223_372_036_854_775_807 then 9_223_372_036_854_775_807 else ageMs.value) * 1_000_000 < now
  }

  /** An event is cut off exactly when it is older than the request's age limit. */
  lemma CutOffIsOlder(r: Ring, now: int, ageMs: Option<nat>, s: nat)
    requires r.Has(s) && r.At(s).timestamp >= MIN_UTC
    ensures r.Below(FloorOf(now, ageMs), s) <==> Older(r.At(s).timestamp, now, ageMs)
  {
  }

  predicate Expired(log: seq<Event>, cutoff: Option<int>, n: nat) {
    n < |log| && cutoff.Some? && log[n].timestamp < cutoff.value
  }

  /** With the first `n` events gone, the capacity is still exceeded or the front is expired. */
  predicate Evictable(log: seq<Event>, max: nat, cutoff: Option<int>, n: nat) {
    |log| - n > max || Expired(log, cutoff, n)
  }

  function CutoffOf(cfg: BufferConfig, now: int): Option<int> {
    match cfg.maxAge case None => None case Some(age) => Some(SubClamped(now, age))
  }

  /** How much is evicted after pruning: the least amount that meets the capacity and leaves a front that is not expired. */
  function PruneTo(r: Ring, max: nat, cutoff: Option<int>): (n: nat)
    requires r.evicted <= r.Head()
    ensures r.evicted <= n <= r.Head()
    ensures !Evictable(r.log, max, cutoff, n)
    ensures forall k :: r.evicted <= k < n ==> Evictable(r.log, max, cutoff, k)
    decreases r.Head() - r.evicted
  {
    if Evictable(r.log, max, cutoff, r.evicted)
    then PruneTo(r.(evicted := r.evicted + 1), max, cutoff)
    else r.evicted
  }

  lemma PruneUnique(r: Ring, max: nat, cutoff: Option<int>, n: nat)
    requires r.evicted <= n <= r.Head()
    requires !Evictable(r.log, max, cutoff, n)
    requires forall k :: r.evicted <= k < n ==> Evictable(r.log, max, cutoff, k)
    ensures PruneTo(r, max, cutoff) == n
  {
    var m := PruneTo(r, max, cutoff);
    assert !Evictable(r.log, max, cutoff, m);
    assert m == n;
  }

  lemma OverCap(log: seq<Event>, max: nat, cutoff: Option<int>, n: nat)
    requires |log| - n > max
    ensures Evictable(log, max, cutoff, n)
  {
  }

  function Pruned(r: Ring, cfg: BufferConfig, now: int): Ring
    requires r.evicted <= r.Head()
  {
    r.(evicted := PruneTo(r, cfg.maxEventsPerType, CutoffOf(cfg, now)))
  }

  /** What retention means: after a prune no more than the capacity is held, and the oldest event held is not older than
      the maximum age. */
  lemma RetentionIs(r: Ring, cfg: BufferConfig, now: int)
    requires r.evicted <= r.Head() && forall s :: r.Has(s) ==> r.At(s).timestamp >= MIN_UTC
    ensures var n := Pruned(r, cfg, now).evicted;
      && Pruned(r, cfg, now).log == r.log && r.evicted <= n <= r.Head() && r.Head() - n <= cfg.maxEventsPerType
      && (cfg.maxAge.Some? && n < r.Head() ==> r.At(n + 1).timestamp + cfg.maxAge.value >= now)
  {
    var n := Pruned(r, cfg, now).evicted;
    assert !Evictable(r.log, cfg.maxEventsPerType, CutoffOf(cfg, now), n);
    if n < r.Head() {
      assert r.At(n + 1).timestamp >= MIN_UTC;
    }
  }

  /** Every event that a prune evicts was over the capacity or too old. */
  lemma EvictedRightly(r: Ring, cfg: BufferConfig, now: int, s: nat)
    requires r.evicted <= r.Head() && r.evicted < s <= Pruned(r, cfg, now).evicted && r.At(s).timestamp >= MIN_UTC
    ensures r.Head() - s >= cfg.maxEventsPerType || (cfg.maxAge.Some? && r.At(s).timestamp + cfg.maxAge.value < now)
  {
    assert Evictable(r.log, cfg.maxEventsPerType, CutoffOf(cfg, now), s - 1);
  }

  function StoredAt(log: seq<Event>, s: nat): Stored
    requires 1 <= s <= |log|
  {
    Stored(s, log[s - 1].eventId, log[s - 1].timestamp, log[s - 1].data)
  }

  /** The deque holds a contiguous suffix of the log, up to its last event. */
  ghost predicate Represents(st: TypeState, log: seq<Event>) {
    && st.lastSeq == |log| < U64_LIMIT
    && |st.entries| <= |log|
    && forall i :: 0 <= i < |st.entries| ==> st.entries[i] == StoredAt(log, |log| - |st.entries| + i + 1)
  }

  /** Within the capacity and with a front that is not expired, nothing more is evicted. */
  lemma FrontKept(log: seq<Event>, max: nat, cutoff: Option<int>, entries: seq<Stored>)
    requires Represents(TypeState(|log|, entries), log) && |entries| <= max
    requires cutoff.Some? && |entries| > 0 ==> entries[0].timestamp >= cutoff.value
    ensures !Evictable(log, max, cutoff, |log| - |entries|)
  {
    if |entries| > 0 {
      assert entries[0] == StoredAt(log, |log| - |entries| + 1);
    }
  }

  /** A poll-style occurrence of event `s`: it carries no cursor of its own. */
  function OccurrenceOf(r: Ring, name: string, s: nat): EventOccurrence
    requires r.Has(s)
  {
    var e := r.log[s - 1];
    EventOccurrence(e.eventId, name, e.timestamp, e.data, None)
  }

  /** The wire result says exactly what the outcome says. */
  ghost predicate Renders(r: Ring, epoch: nat, name: string, o: Outcome, res: ReadResult) {
    && |res.events| == |o.picked|
    && (forall i :: 0 <= i < |o.picked| ==> r.Has(o.picked[i]) && res.events[i] == OccurrenceOf(r, name, o.picked[i]))
    && res.cursor == CursorStr(epoch, o.pos)
    && res.truncated == o.truncated
    && res.hasMore == o.hasMore
  }

  class EventBuffer {
    const epoch: u64
    const cfg: BufferConfig
    var types: map<string, TypeState>
    /** Everything ever sent on each type's broadcast channel, in order: the unbounded log. */
    var logs: map<string, seq<Event>>

    ghost predicate Valid()
      reads this
    {
      && logs.Keys == types.Keys
      && forall n :: n in types ==> Represents(types[n], logs[n])
    }

    ghost function RingOf(name: string): (r: Ring)
      requires Valid()
      reads this
      ensures r.Valid()
    {
      if name in types then Ring(logs[name], |logs[name]| - |types[name].entries|) else Ring([], 0)
    }

    constructor (epoch: u64, cfg: BufferConfig)
      ensures Valid() && this.epoch == epoch && this.cfg == cfg
      ensures forall n :: RingOf(n) == Ring([], 0)
    {
      this.epoch := epoch;
      this.cfg := cfg;
      types := map[];
      logs := map[];
    }

    static method Prune(cfg: BufferConfig, st: TypeState, now: int, ghost log: seq<Event>) returns (st': TypeState)
      requires Represents(st, log)
      ensures Represents(st', log)
      ensures Ring(log, |log| - |st'.entries|) == Pruned(Ring(log, |log| - |st.entries|), cfg, now)
    {
      hide PruneTo, SubClamped, Evictable;
      var entries := st.entries;
      ghost var first := |log| - |entries|;
      ghost var cutoff := CutoffOf(cfg, now);
      while |entries| > cfg.maxEventsPerType
        invariant |entries| <= |st.entries| && entries == st.entries[|st.entries| - |entries|..]
        invariant forall k :: first <= k < |log| - |entries| ==> Evictable(log, cfg.maxEventsPerType, cutoff, k)
      {
        OverCap(log, cfg.maxEventsPerType, cutoff, |log| - |entries|);
        entries := entries[1..];
      }
      if cfg.maxAge.Some? {
        entries := DropExpired(entries, SubClamped(now, cfg.maxAge.value), log, cfg.maxEventsPerType);
      }
      FrontKept(log, cfg.maxEventsPerType, cutoff, entries);
      PruneUnique(Ring(log, first), cfg.maxEventsPerType, cutoff, |log| - |entries|);
      st' := st.(entries := entries);
    }

    /** Pops expired events off the front. */
    static method DropExpired(all: seq<Stored>, cutoff: int, ghost log: seq<Event>, ghost max: nat)
      returns (entries: seq<Stored>)
      requires Represents(TypeState(|log|, all), log)
      ensures |entries| <= |all| && entries == all[|all| - |entries|..]
      ensures forall k :: |log| - |all| <= k < |log| - |entries| ==> Evictable(log, max, Some(cutoff), k)
      ensures |entries| > 0 ==> entries[0].timestamp >= cutoff
    {
      entries := all;
      while |entries| > 0 && entries[0].timestamp < cutoff
        invariant |entries| <= |all| && entries == all[|all| - |entries|..]
        invariant forall k :: |log| - |all| <= k < |log| - |entries| ==> Evictable(log, max, Some(cutoff), k)
      {
        assert entries[0] == StoredAt(log, |log| - |entries| + 1);
        entries := entries[1..];
      }
    }

    method Emit(now: int, ev: EmittedEvent) returns (seqNo: nat)
      requires Valid() && RingOf(ev.name).Head() + 1 < U64_LIMIT
      modifies this
      ensures Valid()
      ensures seqNo == old(RingOf(ev.name)).Head() + 1
      ensures var before := old(RingOf(ev.name));
              RingOf(ev.name) == Pruned(before.(log := before.log + [Event(ev.eventId, ev.timestamp, ev.data)]), cfg, now)
      ensures Evolves(old(RingOf(ev.name)), RingOf(ev.name))
      ensures forall n :: n != ev.name ==> RingOf(n) == old(RingOf(n))
    {
      var st := if ev.name in types then types[ev.name] else TypeState(0, []);
      var log := (if ev.name in types then logs[ev.name] else []) + [Event(ev.eventId, ev.timestamp, ev.data)];
      seqNo := st.lastSeq + 1;
      st := TypeState(seqNo, st.entries + [Stored(seqNo, ev.eventId, ev.timestamp, ev.data)]);
      assert Represents(st, log);
      st := Prune(cfg, st, now, log);
      types := types[ev.name := st];
      logs := logs[ev.name := log];
    }

    /** Where to start after, from the request's cursor and the front of the deque. */
    static method ResolveStart(epoch: nat, cursor: string, lastSeq: nat, entries: seq<Stored>, ghost r: Ring)
      returns (startAfter: nat, truncated: bool)
      requires r.Valid() && Represents(TypeState(lastSeq, entries), r.log) && r.evicted == |r.log| - |entries|
      ensures (startAfter, truncated) == StartAfter(r, epoch, cursor)
    {
      assert |entries| > 0 ==> entries[0] == StoredAt(r.log, r.evicted + 1);
      truncated := false;
      match ParseCursor(cursor) {
        case Some((e, s)) =>
          if e == epoch && s <= lastSeq {
            if |entries| > 0 && s + 1 < entries[0].seqNo {
              truncated := true;
              startAfter := entries[0].seqNo - 1;
            } else if |entries| == 0 && s < lastSeq {
              truncated := true;
              startAfter := lastSeq;
            } else {
              startAfter := s;
            }
          } else if e == epoch {
            truncated := true;
            startAfter := lastSeq;
          } else {
            truncated := true;
            startAfter := if |entries| > 0 then entries[0].seqNo - 1 else lastSeq;
          }
        case None =>
          truncated := true;
          startAfter := if |entries| > 0 then entries[0].seqNo - 1 else lastSeq;
      }
    }

    /** The scan over the retained entries. */
    static method Scan(name: string, entries: seq<Stored>, startAfter: nat, gap: bool, floor: Option<int>,
                       maxEvents: Option<nat>, q: Query, ghost r: Ring)
      returns (events: seq<EventOccurrence>, pos: nat, truncated: bool, hasMore: bool, ghost picked: seq<nat>)
      requires r.Valid() && Represents(TypeState(|r.log|, entries), r.log) && r.evicted == |r.log| - |entries|
      requires r.evicted <= startAfter <= r.Head()
      ensures ScanFrom(r, startAfter, gap, floor, maxEvents, q, Outcome(picked, pos, truncated, hasMore))
      ensures |events| == |picked|
      ensures forall k :: 0 <= k < |picked| ==> r.Has(picked[k]) && events[k] == OccurrenceOf(r, name, picked[k])
    {
      events, picked, pos, truncated, hasMore := [], [], startAfter, gap, false;
      for i := 0 to |entries|
        invariant pos == if startAfter < r.evicted + i then r.evicted + i else startAfter
        invariant startAfter <= pos <= r.Head()
        invariant picked == Select(r, floor, q, startAfter, pos)
        invariant truncated <==> gap || exists s :: startAfter < s <= pos && r.Below(floor, s)
        invariant maxEvents.Some? ==> |picked| <= maxEvents.value
        invariant |events| == |picked|
        invariant forall k :: 0 <= k < |picked| ==> r.Has(picked[k]) && events[k] == OccurrenceOf(r, name, picked[k])
        invariant !hasMore
      {
        var e := entries[i];
        assert e == StoredAt(r.log, r.evicted + i + 1);
        if e.seqNo > startAfter {
          assert e.seqNo == pos + 1 && e.data == r.log[pos].data && e.timestamp == r.log[pos].timestamp;
          if floor.Some? && e.timestamp < floor.value {
            assert r.Below(floor, pos + 1);
            truncated := true;
            pos := e.seqNo;
          } else if q.params.Some? && q.filter.Some? && !q.filter.value(q.params.value, e.data) {
            assert !r.Wanted(floor, q, pos + 1) && !r.Below(floor, pos + 1);
            pos := e.seqNo;
          } else {
            assert r.Wanted(floor, q, pos + 1) && !r.Below(floor, pos + 1);
            if maxEvents.Some? && |events| >= maxEvents.value {
              hasMore := true;
              break;
            }
            events := events + [EventOccurrence(e.eventId, name, e.timestamp, e.data, None)];
            picked := picked + [e.seqNo];
            pos := e.seqNo;
          }
        }
      }
    }

    /** Looks the type up, creating it if need be, and prunes it. */
    method PruneType(now: int, name: string) returns (st: TypeState)
      requires Valid()
      modifies this
      ensures Valid() && name in types && st == types[name]
      ensures RingOf(name) == Pruned(old(RingOf(name)), cfg, now)
      ensures forall n :: n != name ==> RingOf(n) == old(RingOf(n))
    {
      st := if name in types then types[name] else TypeState(0, []);
      var log := if name in types then logs[name] else [];
      st := Prune(cfg, st, now, log);
      types := types[name := st];
      logs := logs[name := log];
    }

    method Read(now: int, name: string, cursor: Option<string>, maxAgeMs: Option<nat>, maxEvents: Option<nat>, q: Query)
      returns (res: ReadResult, ghost o: Outcome)
      requires Valid()
      modifies this
      ensures Valid()
      ensures RingOf(name) == Pruned(old(RingOf(name)), cfg, now)
      ensures Evolves(old(RingOf(name)), RingOf(name))
      ensures forall n :: n != name ==> RingOf(n) == old(RingOf(n))
      ensures Reads(RingOf(name), epoch, cursor, FloorOf(now, maxAgeMs), maxEvents, q, o)
      ensures Renders(RingOf(name), epoch, name, o, res)
    {
      var st := PruneType(now, name);
      ghost var r := RingOf(name);
      match cursor {
        case None =>
          o := Outcome([], st.lastSeq, false, false);
          res := ReadResult([], CursorStr(epoch, st.lastSeq), false, false);
        case Some(c) =>
          var startAfter, gap := ResolveStart(epoch, c, st.lastSeq, st.entries, r);
          var events, pos, truncated, hasMore;
          ghost var picked;
          events, pos, truncated, hasMore, picked := Scan(name, st.entries, startAfter, gap, FloorOf(now, maxAgeMs), maxEvents, q, r);
          o := Outcome(picked, pos, truncated, hasMore);
          res := ReadResult(events, CursorStr(epoch, pos), truncated, hasMore);
      }
    }

    /** Subscribes to the live channel: the receiver sees the events after the current head. */
    method Live(name: string) returns (rx: nat)
      requires Valid()
      modifies this
      ensures Valid()
      ensures rx == old(RingOf(name)).Head()
      ensures forall n :: RingOf(n) == old(RingOf(n))
    {
      if name !in types {
        types := types[name := TypeState(0, [])];
        logs := logs[name := []];
      }
      rx := types[name].lastSeq;
    }

    /** How many events the channel of this type has carried. */
    function SentCount(name: string): (n: nat)
      requires Valid()
      reads this
      ensures n == RingOf(name).Head()
    {
      if name in types then |logs[name]| else 0
    }

    /** The channel yields the event after position `rx`; a live occurrence carries its own cursor. */
    method Recv(name: string, rx: nat) returns (seqNo: nat, occ: EventOccurrence)
      requires Valid() && rx < RingOf(name).Head()
      ensures seqNo == rx + 1
      ensures occ == OccurrenceOf(RingOf(name), name, seqNo).(cursor := Some(CursorStr(epoch, seqNo)))
    {
      seqNo := rx + 1;
      var e := logs[name][rx];
      occ := EventOccurrence(e.eventId, name, e.timestamp, e.data, Some(CursorStr(epoch, seqNo)));
    }

    method CurrentCursor(name: string) returns (c: string)
      requires Valid()
      ensures c == CursorStr(epoch, RingOf(name).Head())
    {
      c := CursorStr(epoch, if name in types then types[name].lastSeq else 0);
    }

    /** Anything other tasks can do between two locked sections: emits of any type and reads by anyone, at any times. */
    method Interfere(steps: nat)
      requires Valid()
      modifies this
      ensures Valid()
      ensures forall n :: Evolves(old(RingOf(n)), RingOf(n))
    {
      for i := 0 to steps
        invariant Valid()
        invariant forall n :: Evolves(old(RingOf(n)), RingOf(n))
      {
        hide Pruned, Reads, Renders, RingOf;
        var now: int := *;
        if * {
          var ev: EmittedEvent := *;
          if SentCount(ev.name) + 1 < U64_LIMIT {
            var _ := Emit(now, ev);
          }
        } else {
          var name: string, cursor: Option<string>, age: Option<nat>, cap: Option<nat> := *, *, *, *;
          var q: Query := *;
          var _, _ := Read(now, name, cursor, age, cap, q);
        }
      }
    }
  }

  /** What is emitted is what a client reads, at once and from the live channel: nothing of it is lost or changed. Only
      retention, which may already have evicted it, can come in between, and then the read is flagged. */
  method EmittedIsRead(buf: EventBuffer, ev: EmittedEvent, now: int, later: int)
    returns (res: ReadResult, live: EventOccurrence)
    requires buf.Valid() && buf.RingOf(ev.name).Head() + 1 < U64_LIMIT
    modifies buf
    ensures var s := old(buf.RingOf(ev.name)).Head() + 1;
      && res.cursor == CursorStr(buf.epoch, s) && !res.hasMore
      && live == EventOccurrence(ev.eventId, ev.name, ev.timestamp, ev.data, Some(CursorStr(buf.epoch, s)))
      && if res.truncated then res.events == []
         else res.events == [EventOccurrence(ev.eventId, ev.name, ev.timestamp, ev.data, None)]
  {
    hide CursorStr, ParseCursor, Reads, Renders, PruneTo, EventBuffer.Valid, EventBuffer.RingOf;
    var seqNo := buf.Emit(now, ev);
    var _, occ := buf.Recv(ev.name, seqNo - 1);
    live := occ;
    ghost var o;
    res, o := buf.Read(later, ev.name, Some(CursorStr(buf.epoch, seqNo - 1)), None, None, Query(None, None));
    LastRead(buf.RingOf(ev.name), buf.epoch, ev.name, o, res);
  }

  /** The reply to the cursor right before the head: the last event, or nothing and a flag when it was evicted. */
  lemma LastRead(r: Ring, epoch: nat, name: string, o: Outcome, res: ReadResult)
    requires r.Valid() && r.Head() > 0 && epoch < U64_LIMIT && r.Head() < U64_LIMIT
    requires Reads(r, epoch, Some(CursorStr(epoch, r.Head() - 1)), None, None, Query(None, None), o) && Renders(r, epoch, name, o, res)
    ensures res.cursor == CursorStr(epoch, r.Head()) && !res.hasMore
    ensures res.events == if res.truncated then [] else [OccurrenceOf(r, name, r.Head())]
  {
    hide CursorStr, ParseCursor;
    var s := r.Head();
    CursorRoundTrip(epoch, s - 1);
    assert Select(r, None, Query(None, None), s, s) == [];
    assert Select(r, None, Query(None, None), s - 1, s) == [s];
  }
}
