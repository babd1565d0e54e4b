/** The feed: row changes read off the upstream's payloads, and the deterministic mock scenario. */
module Feed {
  import opened Cursors
  import opened Json

  datatype ChangeType = Added | Updated | Deleted

  datatype FeedEvent = FeedEvent(queryId: string, change: ChangeType, before: Option<Value>, after: Option<Value>,
                                 timestamp: Option<int>, upstreamId: Option<string>)

  /** A change carries the rows its kind needs: an added row only after, a deleted one only before. */
  predicate WellSided(ev: FeedEvent) {
    match ev.change
    case Added => ev.before.None? && ev.after.Some?
    case Updated => ev.after.Some?
    case Deleted => ev.before.Some? && ev.after.None?
  }

  // ----- the upstream's payloads -----

  /** A field's value; JSON null is treated as absent. */
  function NonNull(v: Value, key: string): Option<Value> {
    var field := Get(v, key);
    if field == Some(Null) then None else field
  }

  function FeedEventFromDiff(queryId: string, timestamp: Option<int>, diff: Value): Option<FeedEvent> {
    var data, before, after := NonNull(diff, "data"), NonNull(diff, "before"), NonNull(diff, "after");
    if !diff.Object? then None
    else if Get(diff, "type") == Some(String("ADD")) then
      if data.None? then None else Some(FeedEvent(queryId, Added, None, data, timestamp, None))
    else if Get(diff, "type") == Some(String("UPDATE")) then
      var row := if after.Some? then after else data;
      if row.None? then None else Some(FeedEvent(queryId, Updated, before, row, timestamp, None))
    else if Get(diff, "type") == Some(String("DELETE")) then
      if data.None? then None else Some(FeedEvent(queryId, Deleted, data, None, timestamp, None))
    else if Get(diff, "type") == Some(String("aggregation")) then
      if after.None? then None else Some(FeedEvent(queryId, Updated, before, after, timestamp, None))
    else None
  }

  function FeedEventsFromDiffs(queryId: string, timestamp: Option<int>, diffs: seq<Value>): seq<FeedEvent> {
    if diffs == [] then []
    else
      var ev := FeedEventFromDiff(queryId, timestamp, diffs[0]);
      (if ev.Some? then [ev.value] else []) + FeedEventsFromDiffs(queryId, timestamp, diffs[1..])
  }

  /** The changes of one payload (`None` for text that is blank or no JSON); malformed ones yield nothing.
      `timestamp` is the payload's own, already read. */
  function FeedEventsFromPayload(payload: Option<Value>, timestamp: Option<int>): seq<FeedEvent> {
    if payload.None? || !payload.value.Object? || Get(payload.value, "type") == Some(String("heartbeat")) then []
    else
      match (Get(payload.value, "queryId"), Get(payload.value, "results"))
      case (Some(String(queryId)), Some(Array(results))) => FeedEventsFromDiffs(queryId, timestamp, results)
      case _ => []
  }

  /** Whatever the payload, every change it yields has the sides its kind needs, none of them null. */
  lemma {:induction false} DiffsWellSided(queryId: string, timestamp: Option<int>, diffs: seq<Value>)
    ensures forall ev :: ev in FeedEventsFromDiffs(queryId, timestamp, diffs) ==>
      WellSided(ev) && ev.queryId == queryId && ev.before != Some(Null) && ev.after != Some(Null)
  {
    if diffs != [] {
      DiffsWellSided(queryId, timestamp, diffs[1..]);
    }
  }

  lemma PayloadWellSided(payload: Option<Value>, timestamp: Option<int>)
    ensures forall ev :: ev in FeedEventsFromPayload(payload, timestamp) ==>
      WellSided(ev) && Get(payload.value, "queryId") == Some(String(ev.queryId))
  {
    if payload.Some? {
      match (Get(payload.value, "queryId"), Get(payload.value, "results"))
      case (Some(String(queryId)), Some(Array(results))) => DiffsWellSided(queryId, timestamp, results);
      case _ =>
    }
  }

  predicate Present(diff: Value, key: string) {
    Get(diff, key).Some? && Get(diff, key) != Some(Null)
  }

  function Typed(diff: Value): Option<string> {
    match Get(diff, "type") case Some(String(t)) => Some(t) case _ => None
  }

  /** Which diffs yield a change, of which kind, and from which fields its rows come. */
  lemma DiffYields(queryId: string, timestamp: Option<int>, diff: Value)
    ensures var t, r := Typed(diff), FeedEventFromDiff(queryId, timestamp, diff);
      && (r.Some? <==>
           || ((t == Some("ADD") || t == Some("DELETE")) && Present(diff, "data"))
           || (t == Some("UPDATE") && (Present(diff, "after") || Present(diff, "data")))
           || (t == Some("aggregation") && Present(diff, "after")))
      && (r.Some? ==>
           var ev := r.value;
           && ev.queryId == queryId && ev.timestamp == timestamp && ev.upstreamId.None?
           && (ev.change.Added? <==> t == Some("ADD")) && (ev.change.Deleted? <==> t == Some("DELETE"))
           && (ev.change.Added? ==> ev.after == Get(diff, "data"))
           && (ev.change.Deleted? ==> ev.before == Get(diff, "data"))
           && (ev.change.Updated? ==>
                && ev.after == Get(diff, if Present(diff, "after") then "after" else "data")
                && ev.before == if Present(diff, "before") then Get(diff, "before") else None))
  {
    assert !diff.Object? ==> Get(diff, "type").None?;
    assert "ADD"[0] == 'A' && "DELETE"[0] == 'D' && "UPDATE"[0] == 'U' && "aggregation"[0] == 'a';
  }

  /** A change as the upstream writes it: an update repeats its new row under `data`. */
  function DiffOf(ev: FeedEvent): Value
    requires WellSided(ev)
  {
    match ev.change
    case Added => Object([("type", String("ADD")), ("data", ev.after.value)])
    case Updated =>
      var before := if ev.before.Some? then ev.before.value else Null;
      Object([("type", String("UPDATE")), ("data", ev.after.value), ("before", before), ("after", ev.after.value)])
    case Deleted => Object([("type", String("DELETE")), ("data", ev.before.value)])
  }

  function DiffsOf(evs: seq<FeedEvent>): seq<Value>
    requires forall ev :: ev in evs ==> WellSided(ev)
  {
    if evs == [] then [] else [DiffOf(evs[0])] + DiffsOf(evs[1..])
  }

  function PayloadOf(queryId: string, evs: seq<FeedEvent>): Value
    requires forall ev :: ev in evs ==> WellSided(ev)
  {
    Object([("queryId", String(queryId)), ("results", Array(DiffsOf(evs)))])
  }

  /** What such a diff can carry: rows that are not null, and no id of its own. */
  predicate Written(ev: FeedEvent, queryId: string, timestamp: Option<int>) {
    && WellSided(ev) && ev.queryId == queryId && ev.timestamp == timestamp && ev.upstreamId.None?
    && ev.before != Some(Null) && ev.after != Some(Null)
  }

  lemma {:induction false} LookupAt(fields: seq<(string, Value)>, i: nat, key: string)
    requires i < |fields| && fields[i].0 == key && forall j :: 0 <= j < i ==> fields[j].0 != key
    ensures Lookup(fields, key) == Some(fields[i].1)
  {
    if i > 0 {
      LookupAt(fields[1..], i - 1, key);
    }
  }

  lemma FieldLookups(a: Value, b: Value, c: Value, d: Value)
    ensures var two := Object([("type", a), ("data", b)]);
      && Get(two, "type") == Some(a) && Get(two, "data") == Some(b)
    ensures var four := Object([("type", a), ("data", b), ("before", c), ("after", d)]);
      && Get(four, "type") == Some(a) && Get(four, "data") == Some(b)
      && Get(four, "before") == Some(c) && Get(four, "after") == Some(d)
    ensures var payload := Object([("queryId", a), ("results", b)]);
      && Get(payload, "queryId") == Some(a) && Get(payload, "results") == Some(b) && Get(payload, "type") == None
  {
    assert "type"[0] == 't' && "data"[0] == 'd' && "before"[0] == 'b' && "after"[0] == 'a' && "queryId"[0] == 'q' && "results"[0] == 'r';
    var f := [("type", a), ("data", b), ("before", c), ("after", d)];
    LookupAt(f, 0, "type");
    LookupAt(f, 1, "data");
    LookupAt(f, 2, "before");
    LookupAt(f, 3, "after");
    LookupAt([("type", a), ("data", b)], 0, "type");
    LookupAt([("type", a), ("data", b)], 1, "data");
    var g := [("queryId", a), ("results", b)];
    LookupAt(g, 0, "queryId");
    LookupAt(g, 1, "results");
    LookupNone(g, "type");
  }

  lemma {:induction false} LookupNone(fields: seq<(string, Value)>, key: string)
    requires forall i :: 0 <= i < |fields| ==> fields[i].0 != key
    ensures Lookup(fields, key) == None
  {
    if fields != [] {
      LookupNone(fields[1..], key);
    }
  }

  lemma DiffRead(ev: FeedEvent, queryId: string, timestamp: Option<int>)
    requires Written(ev, queryId, timestamp)
    ensures FeedEventFromDiff(queryId, timestamp, DiffOf(ev)) == Some(ev)
  {
    var row := if ev.after.Some? then ev.after.value else ev.before.value;
    var kind := String(if ev.change.Added? then "ADD" else if ev.change.Updated? then "UPDATE" else "DELETE");
    FieldLookups(kind, row, if ev.before.Some? then ev.before.value else Null, row);
    assert "ADD"[0] == 'A' && "DELETE"[0] == 'D' && "UPDATE"[0] == 'U';
    hide Lookup;
  }

  lemma {:induction false} DiffsRead(evs: seq<FeedEvent>, queryId: string, timestamp: Option<int>)
    requires forall ev :: ev in evs ==> WellSided(ev) && Written(ev, queryId, timestamp)
    ensures FeedEventsFromDiffs(queryId, timestamp, DiffsOf(evs)) == evs
  {
    hide FeedEventFromDiff, DiffOf;
    if evs != [] {
      assert evs[0] in evs;
      DiffRead(evs[0], queryId, timestamp);
      assert forall ev :: ev in evs[1..] ==> ev in evs;
      DiffsRead(evs[1..], queryId, timestamp);
      assert DiffsOf(evs)[1..] == DiffsOf(evs[1..]);
      assert evs == [evs[0]] + evs[1..];
    }
  }

  /** A payload written from a list of changes is read as that list, in order; a heartbeat yields nothing. */
  lemma PayloadRead(evs: seq<FeedEvent>, queryId: string, timestamp: Option<int>, payload: Value)
    requires forall ev :: ev in evs ==> WellSided(ev) && Written(ev, queryId, timestamp)
    ensures FeedEventsFromPayload(Some(PayloadOf(queryId, evs)), timestamp) == evs
    ensures Get(payload, "type") == Some(String("heartbeat")) ==> FeedEventsFromPayload(Some(payload), timestamp) == []
  {
    FieldLookups(String(queryId), Array(DiffsOf(evs)), Null, Null);
    DiffsRead(evs, queryId, timestamp);
    hide Lookup, FeedEventsFromDiffs;
  }

  // ----- the mock scenario -----

  const LANES: nat := 3
  const PHASES: nat := 4
  const CUSTOMERS: seq<string> := ["alice", "bob", "carol", "dave", "erin"]

  /** The row of `order` at revision `rev` (0 as inserted). */
  function OrderRow(order: nat, rev: nat): Value {
    var customer := CUSTOMERS[(if order == 0 then 0 else order - 1) % 5];
    var total := 1200 + order % 5 * 150 + (if rev == 0 then 0 else if rev == 1 then 100 else 250);
    var status := if rev == 0 then "open" else if rev == 1 then "paid" else "shipped";
    Object([("customer", String(customer)), ("id", Number(RenderNat(order))), ("status", String(status)),
            ("total", Number(RenderNat(total) + ".0"))])
  }

  function MockEvent(queryId: string, order: nat, phase: nat, now: int): FeedEvent {
    var id := Some("order-" + RenderNat(order) + "-rev-" + RenderNat(phase));
    match phase
    case 0 => FeedEvent(queryId, Added, None, Some(OrderRow(order, 0)), Some(now), id)
    case 1 => FeedEvent(queryId, Updated, Some(OrderRow(order, 0)), Some(OrderRow(order, 1)), Some(now), id)
    case 2 => FeedEvent(queryId, Updated, Some(OrderRow(order, 1)), Some(OrderRow(order, 2)), Some(now), id)
    case _ => FeedEvent(queryId, Deleted, Some(OrderRow(order, 2)), None, Some(now), id)
  }

  /** An order keeps its number and its customer; its status goes from open to paid to shipped, and its total rises by
      100 and then by 150. Customers take turns, five of them. */
  lemma OrderRows(order: nat, rev: nat)
    requires rev <= 2 && order > 0
    ensures var row := OrderRow(order, rev);
      && Get(row, "id") == Some(Number(RenderNat(order)))
      && Get(row, "customer") == Some(String(["alice", "bob", "carol", "dave", "erin"][(order - 1) % 5]))
      && Get(row, "status") == Some(String(["open", "paid", "shipped"][rev]))
      && Get(row, "total") == Some(Number(RenderNat([1200, 1300, 1450][rev] + order % 5 * 150) + ".0"))
  {
    hide RenderNat;
    assert "customer"[0] == 'c' && "id"[0] == 'i' && "status"[0] == 's' && "total"[0] == 't';
    var fields := OrderRow(order, rev).fields;
    LookupAt(fields, 0, "customer");
    LookupAt(fields, 1, "id");
    LookupAt(fields, 2, "status");
    LookupAt(fields, 3, "total");
  }

  /** Every mock change has an id of its own, which names the order and the phase. */
  lemma MockIds(queryId: string, order: nat, phase: nat, now: int, order': nat, phase': nat, now': int)
    ensures var a, b := MockEvent(queryId, order, phase, now), MockEvent(queryId, order', phase', now');
      && a.upstreamId.Some? && (a.upstreamId == b.upstreamId <==> order == order' && phase == phase')
      && a.timestamp == Some(now) && a.queryId == queryId
  {
    hide RenderNat, OrderRow;
    var x, y := RenderNat(order), RenderNat(order');
    var u, v := RenderNat(phase), RenderNat(phase');
    RenderedValue(order);
    RenderedValue(order');
    RenderedValue(phase);
    RenderedValue(phase');
    assert MockEvent(queryId, order, phase, now).upstreamId == Some("order-" + x + "-rev-" + u);
    assert MockEvent(queryId, order', phase', now').upstreamId == Some("order-" + y + "-rev-" + v);
    if "order-" + x + "-rev-" + u == "order-" + y + "-rev-" + v {
      assert "order-" + x + "-rev-" + u == "order-" + (x + ("-rev-" + u));
      assert "order-" + y + "-rev-" + v == "order-" + (y + ("-rev-" + v));
      SameTail("order-", x + ("-rev-" + u), y + ("-rev-" + v));
      DigitsThenDash(x, y, "-rev-" + u, "-rev-" + v);
      SameTail("-rev-", u, v);
    }
  }

  lemma SameTail(t: string, r: string, s: string)
    requires t + r == t + s
    ensures r == s
  {
    assert r == (t + r)[|t|..] && s == (t + s)[|t|..];
  }

  lemma DigitsThenDash(x: string, y: string, r: string, s: string)
    requires AllDigits(x) && AllDigits(y) && r != "" && s != "" && r[0] == '-' && s[0] == '-'
    requires x + r == y + s
    ensures x == y && r == s
  {
    var c := x + r;
    assert c[|x|] == '-' && (y + s)[|y|] == '-';
    assert forall i :: 0 <= i < |x| ==> IsDigit(c[i]);
    assert forall i :: 0 <= i < |y| ==> IsDigit((y + s)[i]);
    assert |x| == |y|;
    assert x == c[..|x|] && y == c[..|y|] && r == c[|x|..] && s == c[|y|..];
  }

  /** The order and phase of tick `t`. */
  function OrderAt(t: nat): nat {
    3 * (t / 12) + t % 3 + 1
  }

  function PhaseAt(t: nat): nat {
    t / 3 % 4
  }

  /** The first tick not before `t` that serves `lane`. */
  function NextTick(t: nat, lane: nat): nat
    requires lane < LANES
  {
    t + if t % 3 <= lane then lane - t % 3 else lane + 3 - t % 3
  }

  /** The lane scheduler: one event a tick, `clock[t]` being the time of tick `t`. */
  method RunMockFeed(queryId: string, clock: seq<int>) returns (sent: seq<FeedEvent>)
    ensures |sent| == |clock|
    ensures forall t :: 0 <= t < |sent| ==> sent[t] == MockEvent(queryId, OrderAt(t), PhaseAt(t), clock[t])
  {
    hide OrderRow, MockEvent, OrderAt, PhaseAt, NextTick, FinishedBefore;
    FirstTicks();
    var orders := new nat[LANES](i requires 0 <= i => i + 1);
    var phases := new nat[LANES](_ => 0);
    var nextOrder := LANES + 1;
    sent := [];
    for tick := 0 to |clock|
      invariant |sent| == tick
      invariant forall t :: 0 <= t < tick ==> sent[t] == MockEvent(queryId, OrderAt(t), PhaseAt(t), clock[t])
      invariant forall l :: 0 <= l < LANES ==> orders[l] == OrderAt(NextTick(tick, l)) && phases[l] == PhaseAt(NextTick(tick, l))
      invariant nextOrder == 4 + FinishedBefore(tick)
    {
      var lane := tick % LANES;
      NextTicks(tick);
      LaneServed(tick);
      var ev := MockEvent(queryId, orders[lane], phases[lane], clock[tick]);
      if phases[lane] + 1 >= PHASES {
        orders[lane] := nextOrder;
        nextOrder := nextOrder + 1;
        phases[lane] := 0;
      } else {
        phases[lane] := phases[lane] + 1;
      }
      sent := sent + [ev];
    }
  }

  lemma FirstTicks()
    ensures forall l :: 0 <= l < LANES ==> OrderAt(NextTick(0, l)) == l + 1 && PhaseAt(NextTick(0, l)) == 0
    ensures FinishedBefore(0) == 0
  {
  }

  /** How many orders have been finished before tick `t`. */
  function FinishedBefore(t: nat): nat {
    3 * (t / 12) + if t % 12 > 9 then t % 12 - 9 else 0
  }

  lemma TickParts(t: nat, m: nat, p: nat, l: nat)
    requires p < 4 && l < 3 && t == 12 * m + 3 * p + l
    ensures t % 3 == l && OrderAt(t) == 3 * m + l + 1 && PhaseAt(t) == p
    ensures FinishedBefore(t) == 3 * m + if p == 3 then l else 0
  {
    assert t / 12 == m && t % 12 == 3 * p + l;
    assert t / 3 == 4 * m + p && t % 3 == l;
  }

  /** A tick's lane and the next one's, from its quotient. */
  lemma LaneOf(t: nat, k: nat, l: nat)
    requires l < 3 && t == 3 * k + l
    ensures t % 3 == l && (t + 1) % 3 == if l == 2 then 0 else l + 1
  {
    if l == 2 {
      assert t + 1 == 3 * (k + 1);
    } else {
      assert t + 1 == 3 * k + (l + 1);
    }
  }

  lemma NextTicks(t: nat)
    ensures NextTick(t, t % 3) == t && NextTick(t + 1, t % 3) == t + 3
    ensures forall l :: 0 <= l < 3 && l != t % 3 ==> NextTick(t + 1, l) == NextTick(t, l)
  {
    LaneOf(t, t / 3, t % 3);
  }

  /** Serving a lane moves it to its next phase, or to the order after all those in flight. */
  lemma LaneServed(t: nat)
    ensures PhaseAt(t) + 1 < 4 ==> OrderAt(t + 3) == OrderAt(t) && PhaseAt(t + 3) == PhaseAt(t) + 1
    ensures PhaseAt(t) + 1 >= 4 ==> OrderAt(t + 3) == 4 + FinishedBefore(t) && PhaseAt(t + 3) == 0
    ensures FinishedBefore(t + 1) == FinishedBefore(t) + if PhaseAt(t) + 1 >= 4 then 1 else 0
  {
    hide OrderAt, PhaseAt, FinishedBefore;
    var m, p, l := t / 12, t % 12 / 3, t % 3;
    assert t == 12 * m + 3 * p + l;
    TickParts(t, m, p, l);
    if p < 3 {
      TickParts(t + 3, m, p + 1, l);
    } else {
      TickParts(t + 3, m + 1, 0, l);
    }
    if l < 2 {
      TickParts(t + 1, m, p, l + 1);
    } else if p < 3 {
      TickParts(t + 1, m, p + 1, 0);
    } else {
      TickParts(t + 1, m + 1, 0, 0);
    }
  }

  /** The tick at which `order` goes through `phase`. */
  function TickOf(order: nat, phase: nat): nat
    requires order > 0 && phase < 4
  {
    12 * ((order - 1) / 3) + 3 * phase + (order - 1) % 3
  }

  /** Every order goes through every phase once, and at no other tick. */
  lemma EachPhaseOnce(order: nat, phase: nat, t: nat)
    requires order > 0 && phase < 4
    ensures OrderAt(t) == order && PhaseAt(t) == phase <==> t == TickOf(order, phase)
  {
    hide OrderAt, PhaseAt;
    var m, l := (order - 1) / 3, (order - 1) % 3;
    TickParts(TickOf(order, phase), m, phase, l);
    var m', p', l' := t / 12, t % 12 / 3, t % 3;
    assert t == 12 * m' + 3 * p' + l';
    TickParts(t, m', p', l');
    assert 3 * m' + l' == 3 * m + l ==> m' == m && l' == l;
  }

  /** An order's life in the feed: inserted, updated twice from the row last sent, and deleted as that row. */
  lemma OrderLife(queryId: string, order: nat, phase: nat, clock: seq<int>)
    requires order > 0 && phase < 4 && TickOf(order, 3) < |clock|
    ensures forall p :: 0 < p < 4 ==> TickOf(order, p - 1) < TickOf(order, p)
    ensures var t := TickOf(order, phase);
      var ev := MockEvent(queryId, OrderAt(t), PhaseAt(t), clock[t]);
      && WellSided(ev)
      && (phase == 0 <==> ev.before.None?) && (phase == 3 <==> ev.after.None?)
      && (phase > 0 ==>
            var u := TickOf(order, phase - 1);
            ev.before == MockEvent(queryId, OrderAt(u), PhaseAt(u), clock[u]).after)
  {
    EachPhaseOnce(order, phase, TickOf(order, phase));
    if phase > 0 {
      EachPhaseOnce(order, phase - 1, TickOf(order, phase - 1));
    }
  }
}
