/** Event modelling: one `changed` type per query with a filter, or one type per kind of change. */
module Mapping {
  import opened Cursors
  import opened Json
  import opened Log
  import opened Buffer
  import opened Canon
  import opened Feed

  datatype EventModeling = Single | PerChange

  function ChangeTypeStr(c: ChangeType): string {
    match c case Added => "added" case Updated => "updated" case Deleted => "deleted"
  }

  function ChangedName(queryId: string): string {
    queryId + ".changed"
  }

  function KindName(queryId: string, kind: ChangeType): string {
    queryId + "." + ChangeTypeStr(kind)
  }

  /** The filter of a `changed` type: an absent or null `changeType` lets everything pass. */
  predicate ChangeTypeFilter(params: Value, data: Value) {
    match Get(params, "changeType")
    case None => true
    case Some(Null) => true
    case Some(String(want)) => Get(data, "changeType") == Some(String(want))
    case Some(_) => false
  }

  /** The names registered for the configured queries. */
  function NamesOf(mode: EventModeling, queries: seq<string>): seq<string> {
    if queries == [] then []
    else
      NamesOf(mode, queries[..|queries| - 1]) +
      var q := queries[|queries| - 1];
      match mode
      case Single => [ChangedName(q)]
      case PerChange => [KindName(q, Added), KindName(q, Updated), KindName(q, Deleted)]
  }

  /** An event type that is not derived from a query, with the schema of its subscription params. */
  datatype InjectedType = InjectedType(name: string, inputSchema: Option<Value>)

  /** The params that an injected type declares. */
  function KnownKeys(schema: Option<Value>): set<string> {
    if schema.None? then {}
    else
      match Get(schema.value, "properties")
      case Some(Object(fields)) => set i | 0 <= i < |fields| :: fields[i].0
      case _ => {}
  }

  /** The filter of an injected type: every declared param that is not null must equal the event's field; object key
      order does not matter. */
  predicate EqualityFilter(known: set<string>, params: Value, data: Value) {
    params.Object? ==>
      forall i :: 0 <= i < |params.fields| && params.fields[i].0 in known && params.fields[i].1 != Null ==>
        && Get(data, params.fields[i].0).Some?
        && MeaningOf(Get(data, params.fields[i].0).value) == MeaningOf(params.fields[i].1)
  }

  type Filter = (Value, Value) -> bool

  /** The type's filter is the one an injected type of this name declares; of several, the last. */
  ghost predicate FiltersInjected(filters: map<string, Filter>, injected: seq<InjectedType>) {
    forall i :: 0 <= i < |injected| && LastOfName(injected, i) ==>
      injected[i].name in filters && FilterOf(filters[injected[i].name], injected[i])
  }

  predicate LastOfName(injected: seq<InjectedType>, i: nat)
    requires i < |injected|
  {
    forall j :: i < j < |injected| ==> injected[j].name != injected[i].name
  }

  ghost predicate FilterOf(f: Filter, t: InjectedType) {
    forall params, data :: f(params, data) == EqualityFilter(KnownKeys(t.inputSchema), params, data)
  }

  lemma OneMoreFilter(filters: map<string, Filter>, injected: seq<InjectedType>, t: InjectedType, f: Filter)
    requires FiltersInjected(filters, injected) && FilterOf(f, t)
    ensures FiltersInjected(filters[t.name := f], injected + [t])
    ensures InjectedNames(injected + [t]) == InjectedNames(injected) + [t.name]
  {
    hide FilterOf;
    var all := injected + [t];
    assert all[..|injected|] == injected;
    forall i | 0 <= i < |all| && LastOfName(all, i)
      ensures all[i].name in filters[t.name := f] && FilterOf(filters[t.name := f][all[i].name], all[i])
    {
      if i < |injected| {
        assert all[|injected|] == t && all[i] == injected[i];
        forall j | i < j < |injected| ensures injected[j].name != injected[i].name {
          assert all[j] == injected[j];
        }
      }
    }
  }

  function InjectedNames(injected: seq<InjectedType>): (names: seq<string>)
    ensures |names| == |injected| && forall i :: 0 <= i < |injected| ==> names[i] == injected[i].name
  {
    if injected == [] then [] else InjectedNames(injected[..|injected| - 1]) + [injected[|injected| - 1].name]
  }

  /** What is registered: the derived names and then the injected ones, each injected type with its own filter, each
      `changed` type, unless its name was taken, with the change filter. */
  ghost predicate Registers(derived: seq<string>, injected: seq<InjectedType>,
                            names: seq<string>, filters: map<string, Filter>, diffNames: set<string>) {
    && names == derived + InjectedNames(injected)
    && filters.Keys == diffNames + (set n | n in InjectedNames(injected))
    && (forall n :: n in diffNames && n !in InjectedNames(injected) ==> filters[n] == ChangeTypeFilter)
    && FiltersInjected(filters, injected)
  }

  lemma RegistersMore(derived: seq<string>, injected: seq<InjectedType>, t: InjectedType, f: Filter,
                      names: seq<string>, filters: map<string, Filter>, diffNames: set<string>)
    requires Registers(derived, injected, names, filters, diffNames) && FilterOf(f, t)
    ensures Registers(derived, injected + [t], names + [t.name], filters[t.name := f], diffNames)
  {
    hide FiltersInjected, FilterOf, InjectedNames, ChangeTypeFilter;
    OneMoreFilter(filters, injected, t, f);
  }

  method BuildEventModel(mode: EventModeling, queries: seq<string>, injected: seq<InjectedType>)
    returns (names: seq<string>, filters: map<string, Filter>, diffNames: set<string>)
    ensures diffNames == if mode.Single? then set n | n in NamesOf(mode, queries) else {}
    ensures Registers(NamesOf(mode, queries), injected, names, filters, diffNames)
  {
    names, filters, diffNames := QueryTypes(mode, queries);
    for i := 0 to |injected|
      invariant Registers(NamesOf(mode, queries), injected[..i], names, filters, diffNames)
    {
      hide Registers, EqualityFilter, KnownKeys, NamesOf;
      var known := KnownKeys(injected[i].inputSchema);
      var f := (params, data) => EqualityFilter(known, params, data);
      assert injected[..i + 1] == injected[..i] + [injected[i]];
      RegistersMore(NamesOf(mode, queries), injected[..i], injected[i], f, names, filters, diffNames);
      names := names + [injected[i].name];
      filters := filters[injected[i].name := f];
    }
    assert injected[..|injected|] == injected;
  }

  /** The types derived from the queries. */
  method QueryTypes(mode: EventModeling, queries: seq<string>)
    returns (names: seq<string>, filters: map<string, Filter>, diffNames: set<string>)
    ensures names == NamesOf(mode, queries)
    ensures filters.Keys == diffNames
    ensures diffNames == if mode.Single? then set n | n in names else {}
    ensures forall n :: n in filters ==> filters[n] == ChangeTypeFilter
  {
    names, filters, diffNames := [], map[], {};
    for i := 0 to |queries|
      invariant names == NamesOf(mode, queries[..i])
      invariant filters.Keys == diffNames
      invariant diffNames == if mode.Single? then set n | n in names else {}
      invariant forall n :: n in filters ==> filters[n] == ChangeTypeFilter
    {
      assert queries[..i + 1][..i] == queries[..i];
      match mode {
        case Single =>
          var name := ChangedName(queries[i]);
          names := names + [name];
          diffNames := diffNames + {name};
          filters := filters[name := ChangeTypeFilter];
        case PerChange =>
          var variants := [Added, Updated, Deleted];
          for k := 0 to 3
            invariant names == NamesOf(mode, queries[..i]) + [KindName(queries[i], Added), KindName(queries[i], Updated),
              KindName(queries[i], Deleted)][..k]
          {
            names := names + [KindName(queries[i], variants[k])];
          }
      }
    }
    assert queries[..|queries|] == queries;
  }

  /** A change as it reaches the mapping: its event id and time already settled. */
  datatype Change = Change(ev: FeedEvent, eventId: string, at: int)

  function Side(key: string, row: Option<Value>): seq<(string, Value)> {
    if row.Some? then [(key, row.value)] else []
  }

  function MapFeedEvent(mode: EventModeling, c: Change): Option<EmittedEvent> {
    var ev := c.ev;
    match mode
    case Single =>
      var kind := [("changeType", String(ChangeTypeStr(ev.change)))];
      Some(EmittedEvent(ChangedName(ev.queryId), c.eventId, c.at, Object(Side("after", ev.after) + Side("before", ev.before) + kind)))
    case PerChange =>
      match ev.change
      case Added =>
        if ev.after.None? then None
        else Some(EmittedEvent(KindName(ev.queryId, Added), c.eventId, c.at, ev.after.value))
      case Updated =>
        if ev.after.None? then None
        else Some(EmittedEvent(KindName(ev.queryId, Updated), c.eventId, c.at,
                               Object(Side("after", ev.after) + Side("before", ev.before))))
      case Deleted =>
        if ev.before.None? then None
        else Some(EmittedEvent(KindName(ev.queryId, Deleted), c.eventId, c.at, ev.before.value))
  }

  /** What the pipeline logs under `name` for a run of changes: those that map to it, if it is registered. */
  function Logged(mode: EventModeling, names: seq<string>, changes: seq<Change>, name: string): seq<Event> {
    if changes == [] then []
    else
      Logged(mode, names, changes[..|changes| - 1], name) +
      Entry(names, MapFeedEvent(mode, changes[|changes| - 1]), name)
  }

  /** What a mapped change adds to the log of `name`. */
  function Entry(names: seq<string>, e: Option<EmittedEvent>, name: string): seq<Event> {
    if e.Some? && e.value.name == name && name in names
    then [Event(e.value.eventId, e.value.timestamp, e.value.data)] else []
  }

  lemma {:induction false} LoggedAtMost(mode: EventModeling, names: seq<string>, changes: seq<Change>, name: string)
    ensures |Logged(mode, names, changes, name)| <= |changes|
  {
    if changes != [] {
      LoggedAtMost(mode, names, changes[..|changes| - 1], name);
    }
  }

  /** The forwarding loop: each mapped change of a registered type is emitted, in order. */
  method ForwardChanges(buf: EventBuffer, mode: EventModeling, names: seq<string>, changes: seq<Change>, now: int)
    requires buf.Valid()
    requires forall n :: buf.RingOf(n).Head() + |changes| < U64_LIMIT
    modifies buf
    ensures buf.Valid()
    ensures forall n :: buf.RingOf(n).log == old(buf.RingOf(n)).log + Logged(mode, names, changes, n)
  {
    hide EventBuffer.RingOf, EventBuffer.Valid, MapFeedEvent, Logged, Entry;
    forall n ensures Logged(mode, names, changes[..0], n) == [] {
      LoggedNothing(mode, names, n);
      assert changes[..0] == [];
    }
    for i := 0 to |changes|
      invariant buf.Valid()
      invariant forall n :: buf.RingOf(n).log == old(buf.RingOf(n)).log + Logged(mode, names, changes[..i], n)
    {
      var e := MapFeedEvent(mode, changes[i]);
      forall n ensures Logged(mode, names, changes[..i + 1], n) == Logged(mode, names, changes[..i], n) + Entry(names, e, n)
      ensures |Logged(mode, names, changes[..i], n)| <= i {
        LoggedMore(mode, names, changes, i, n);
        LoggedAtMost(mode, names, changes[..i], n);
      }
      EmitMapped(buf, names, e, now);
    }
    assert changes[..|changes|] == changes;
  }

  /** One turn of the loop. */
  method EmitMapped(buf: EventBuffer, names: seq<string>, e: Option<EmittedEvent>, now: int)
    requires buf.Valid() && forall n :: buf.RingOf(n).Head() + 1 < U64_LIMIT
    modifies buf
    ensures buf.Valid()
    ensures forall n :: buf.RingOf(n).log == old(buf.RingOf(n)).log + Entry(names, e, n)
  {
    hide EventBuffer.RingOf, EventBuffer.Valid, PruneTo;
    if e.Some? && e.value.name in names {
      var _ := buf.Emit(now, e.value);
    }
  }

  lemma LoggedNothing(mode: EventModeling, names: seq<string>, name: string)
    ensures Logged(mode, names, [], name) == []
  {
  }

  lemma LoggedMore(mode: EventModeling, names: seq<string>, changes: seq<Change>, i: nat, name: string)
    requires i < |changes|
    ensures Logged(mode, names, changes[..i + 1], name)
         == Logged(mode, names, changes[..i], name) + Entry(names, MapFeedEvent(mode, changes[i]), name)
  {
    assert changes[..i + 1][..i] == changes[..i];
  }

  // ----- what is registered, mapped and filtered, in the words of the wire -----

  /** One change, in either mode: its id and time are kept; the single type's occurrence names the kind and carries the
      rows; the type of a kind carries the row, and both rows for an update. */
  lemma MappedAs(c: Change)
    requires WellSided(c.ev)
    ensures var single, own := MapFeedEvent(Single, c), MapFeedEvent(PerChange, c);
      && single.Some? && own.Some?
      && single.value.eventId == own.value.eventId == c.eventId && single.value.timestamp == own.value.timestamp == c.at
      && single.value.name == c.ev.queryId + ".changed"
      && Get(single.value.data, "before") == c.ev.before && Get(single.value.data, "after") == c.ev.after
      && match c.ev.change
         case Added =>
           Get(single.value.data, "changeType") == Some(String("added"))
           && own.value.name == c.ev.queryId + ".added" && Some(own.value.data) == c.ev.after
         case Updated =>
           Get(single.value.data, "changeType") == Some(String("updated"))
           && own.value.name == c.ev.queryId + ".updated"
           && Get(own.value.data, "before") == c.ev.before && Get(own.value.data, "after") == c.ev.after
         case Deleted =>
           Get(single.value.data, "changeType") == Some(String("deleted"))
           && own.value.name == c.ev.queryId + ".deleted" && Some(own.value.data) == c.ev.before
  {
    SideLookups(c.ev.after, c.ev.before, [("changeType", String(ChangeTypeStr(c.ev.change)))]);
    PerChangeRows(c);
  }

  /** A change that lacks the row its kind needs is dropped by the types of a kind, and only such a change. */
  lemma DroppedIff(c: Change)
    ensures MapFeedEvent(Single, c).Some?
    ensures MapFeedEvent(PerChange, c).None? <==> if c.ev.change.Deleted? then c.ev.before.None? else c.ev.after.None?
  {
  }

  /** The change filter: params without a `changeType`, or with null, let everything pass; a string lets exactly that kind
      pass; anything else lets nothing pass. */
  lemma ChangeFilterIs(params: Value, data: Value)
    ensures Get(params, "changeType") == None || Get(params, "changeType") == Some(Null) ==> ChangeTypeFilter(params, data)
    ensures forall want :: Get(params, "changeType") == Some(String(want)) ==>
      (ChangeTypeFilter(params, data) <==> Get(data, "changeType") == Some(String(want)))
    ensures (Get(params, "changeType").Some? && Get(params, "changeType") != Some(Null)
             && !Get(params, "changeType").value.String?) ==> !ChangeTypeFilter(params, data)
  {
  }

  /** A subscription that asks for one kind gets exactly the changes of that kind. */
  lemma AskedForKind(c: Change, kind: string)
    requires WellSided(c.ev)
    ensures var params := Object([("changeType", String(kind))]);
      ChangeTypeFilter(params, MapFeedEvent(Single, c).value.data) <==>
        match c.ev.change case Added => kind == "added" case Updated => kind == "updated" case Deleted => kind == "deleted"
  {
    MappedAs(c);
    var fields := [("changeType", String(kind))];
    assert Lookup(fields, "changeType") == Some(String(kind));
  }

  /** The declared params are the names under `properties`. */
  lemma KnownKeysAre(schema: Option<Value>, key: string)
    ensures key in KnownKeys(schema) <==>
      schema.Some? && Get(schema.value, "properties").Some? && Get(Get(schema.value, "properties").value, key).Some?
  {
    if schema.Some? && Get(schema.value, "properties").Some? && Get(schema.value, "properties").value.Object? {
      LookupIff(Get(schema.value, "properties").value.fields, key);
    }
  }

  lemma {:induction false} LookupIff(fields: seq<(string, Value)>, key: string)
    ensures Lookup(fields, key).Some? <==> exists i :: 0 <= i < |fields| && fields[i].0 == key
    ensures Lookup(fields, key).Some? ==> exists i :: 0 <= i < |fields| && fields[i] == (key, Lookup(fields, key).value)
  {
    if fields != [] {
      LookupIff(fields[1..], key);
      if fields[0].0 != key {
        if Lookup(fields, key).Some? {
          var i :| 0 <= i < |fields[1..]| && fields[1..][i] == (key, Lookup(fields[1..], key).value);
          assert fields[i + 1] == (key, Lookup(fields, key).value);
        }
        if i :| 0 <= i < |fields| && fields[i].0 == key {
          assert fields[1..][i - 1].0 == key;
        }
      } else {
        assert fields[0] == (key, Lookup(fields, key).value);
      }
    }
  }

  predicate DistinctKeys(fields: seq<(string, Value)>) {
    forall i, j :: 0 <= i < j < |fields| ==> fields[i].0 != fields[j].0
  }

  lemma {:induction false} LookupOfField(fields: seq<(string, Value)>, i: nat)
    requires DistinctKeys(fields) && i < |fields|
    ensures Lookup(fields, fields[i].0) == Some(fields[i].1)
  {
    if i > 0 {
      LookupOfField(fields[1..], i - 1);
    }
  }

  /** The filter of an injected type: params that are no object let everything pass; otherwise every declared key that the
      params give a value other than null must be in the data with an equal value. Undeclared keys are ignored. */
  lemma EqualityFilterIs(schema: Option<Value>, params: Value, data: Value)
    requires params.Object? ==> DistinctKeys(params.fields)
    ensures EqualityFilter(KnownKeys(schema), params, data) <==>
      (params.Object? ==>
         forall key :: key in KnownKeys(schema) && Get(params, key).Some? && Get(params, key) != Some(Null) ==>
           Get(data, key).Some? && MeaningOf(Get(data, key).value) == MeaningOf(Get(params, key).value))
  {
    hide KnownKeys, MeaningOf;
    if params.Object? {
      forall i | 0 <= i < |params.fields| ensures Get(params, params.fields[i].0) == Some(params.fields[i].1) {
        LookupOfField(params.fields, i);
      }
      forall key | Get(params, key).Some? ensures exists i :: 0 <= i < |params.fields| && params.fields[i].0 == key {
        LookupIff(params.fields, key);
      }
    }
  }

  /** The names registered for the queries, in order. */
  lemma {:induction false} NamesAre(mode: EventModeling, queries: seq<string>, i: nat)
    requires i < |queries|
    ensures var names, q := NamesOf(mode, queries), queries[i];
      match mode
      case Single => |names| == |queries| && names[i] == q + ".changed"
      case PerChange =>
        |names| == 3 * |queries|
        && names[3 * i] == q + ".added" && names[3 * i + 1] == q + ".updated" && names[3 * i + 2] == q + ".deleted"
  {
    var n := |queries| - 1;
    if i < n {
      NamesAre(mode, queries[..n], i);
    } else if n > 0 {
      NamesAre(mode, queries[..n], 0);
    }
  }

  // ----- the modes agree -----

  /** The rows an occurrence of a `changed` type carries, before and after. */
  function RowsOfChanged(data: Value): (Option<Value>, Option<Value>) {
    (Get(data, "before"), Get(data, "after"))
  }

  function RowsOfKind(kind: ChangeType, data: Value): (Option<Value>, Option<Value>) {
    match kind
    case Added => (None, Some(data))
    case Updated => (Get(data, "before"), Get(data, "after"))
    case Deleted => (Some(data), None)
  }

  /** The two occurrences of the same change. */
  predicate SameChange(kind: ChangeType, a: Event, b: Event) {
    a.eventId == b.eventId && a.timestamp == b.timestamp && RowsOfChanged(a.data) == RowsOfKind(kind, b.data)
  }

  /** A subscription to one kind of change of a `changed` type, and to a type of its own. */
  function KindQuery(kind: ChangeType): Query {
    Query(Some(Object([("changeType", String(ChangeTypeStr(kind)))])), Some(ChangeTypeFilter))
  }

  lemma NamesDiffer(p: string, q: string, k: ChangeType, l: ChangeType)
    ensures ChangedName(p) == ChangedName(q) ==> p == q
    ensures KindName(p, k) == KindName(q, l) ==> p == q && k == l
  {
    if ChangedName(p) == ChangedName(q) {
      assert p == ChangedName(p)[..|ChangedName(p)| - 8] && q == ChangedName(q)[..|ChangedName(q)| - 8];
    }
    var a, b := KindName(p, k), KindName(q, l);
    if a == b {
      var n, x, y := |a|, ChangeTypeStr(k), ChangeTypeStr(l);
      assert a[n - 3] == x[|x| - 3] && b[n - 3] == y[|y| - 3];
      assert a[n - 4] == x[|x| - 4] && b[n - 4] == y[|y| - 4];
      assert k == l;
      assert p == a[..n - |x| - 1] && q == b[..n - |y| - 1];
    }
  }

  lemma {:induction false} Registered(mode: EventModeling, queries: seq<string>, q: string)
    requires q in queries
    ensures mode.Single? ==> ChangedName(q) in NamesOf(mode, queries)
    ensures mode.PerChange? ==> forall kind :: KindName(q, kind) in NamesOf(mode, queries)
  {
    if q != queries[|queries| - 1] {
      Registered(mode, queries[..|queries| - 1], q);
    } else if mode.PerChange? {
      forall kind ensures KindName(q, kind) in NamesOf(mode, queries) {
        match kind case Added => case Updated => case Deleted =>
      }
    }
  }

  /** Nothing a configured query's feed yields is dropped, in either mode. */
  lemma NothingDropped(mode: EventModeling, queries: seq<string>, c: Change)
    requires c.ev.queryId in queries && WellSided(c.ev)
    ensures MapFeedEvent(mode, c).Some? && MapFeedEvent(mode, c).value.name in NamesOf(mode, queries)
  {
    Registered(mode, queries, c.ev.queryId);
  }

  /** A change is matched by the filtered read exactly when it is of that kind. */
  lemma SingleMatches(kind: ChangeType, c: Change)
    requires WellSided(c.ev)
    ensures var data := MapFeedEvent(Single, c).value.data;
      && (KindQuery(kind).Matches(data) <==> c.ev.change == kind)
      && RowsOfChanged(data) == (c.ev.before, c.ev.after)
  {
    var kindField := [("changeType", String(ChangeTypeStr(c.ev.change)))];
    SideLookups(c.ev.after, c.ev.before, kindField);
    var want := Object([("changeType", String(ChangeTypeStr(kind)))]);
    assert Get(want, "changeType") == Some(String(ChangeTypeStr(kind)));
    assert ChangeTypeStr(kind) == ChangeTypeStr(c.ev.change) ==> kind == c.ev.change by {
      assert "added"[0] == 'a' && "updated"[0] == 'u' && "deleted"[0] == 'd';
    }
  }

  lemma {:induction false} LookupConcat(a: seq<(string, Value)>, b: seq<(string, Value)>, key: string)
    ensures Lookup(a + b, key) == if Lookup(a, key).Some? then Lookup(a, key) else Lookup(b, key)
  {
    if a == [] {
      assert a + b == b;
    } else {
      LookupConcat(a[1..], b, key);
      assert (a + b)[1..] == a[1..] + b;
    }
  }

  lemma SideLookup(name: string, row: Option<Value>, key: string)
    ensures Lookup(Side(name, row), key) == if key == name then row else None
  {
    if row.Some? {
      assert [(name, row.value)][1..] == [];
    }
  }

  lemma SideLookups(after: Option<Value>, before: Option<Value>, rest: seq<(string, Value)>)
    requires rest == [] || (|rest| == 1 && rest[0].0 == "changeType")
    ensures var data := Object(Side("after", after) + Side("before", before) + rest);
      && Get(data, "after") == after && Get(data, "before") == before
      && Get(data, "changeType") == if rest == [] then None else Some(rest[0].1)
  {
    assert "after"[0] == 'a' && "before"[0] == 'b' && "changeType"[0] == 'c';
    var a, b := Side("after", after), Side("before", before);
    forall key ensures Lookup(a + b + rest, key)
      == if Lookup(a, key).Some? then Lookup(a, key) else if Lookup(b, key).Some? then Lookup(b, key) else Lookup(rest, key)
    {
      LookupConcat(a + b, rest, key);
      LookupConcat(a, b, key);
    }
    forall key ensures Lookup(a, key) == (if key == "after" then after else None) {
      SideLookup("after", after, key);
    }
    forall key ensures Lookup(b, key) == (if key == "before" then before else None) {
      SideLookup("before", before, key);
    }
    forall key ensures Lookup(rest, key) == (if rest != [] && key == "changeType" then Some(rest[0].1) else None) {
      if rest != [] {
        SideLookup("changeType", Some(rest[0].1), key);
        assert rest == Side("changeType", Some(rest[0].1));
      }
    }
  }

  lemma PerChangeRows(c: Change)
    requires WellSided(c.ev)
    ensures MapFeedEvent(PerChange, c).Some?
    ensures RowsOfKind(c.ev.change, MapFeedEvent(PerChange, c).value.data) == (c.ev.before, c.ev.after)
  {
    SideLookups(c.ev.after, c.ev.before, []);
    assert Side("after", c.ev.after) + Side("before", c.ev.before) + []
        == Side("after", c.ev.after) + Side("before", c.ev.before);
  }

  /** The filtered selection from a `changed` log runs parallel to the log of the kind's own type. */
  ghost predicate Parallel(kind: ChangeType, changed: seq<Event>, own: seq<Event>) {
    var picked := Select(Ring(changed, 0), None, KindQuery(kind), 0, |changed|);
    && |picked| == |own|
    && forall i :: 0 <= i < |picked| ==> Ring(changed, 0).Has(picked[i]) && SameChange(kind, changed[picked[i] - 1], own[i])
  }

  lemma ParallelMore(kind: ChangeType, changed: seq<Event>, own: seq<Event>, a: Event, b: Event)
    requires Parallel(kind, changed, own)
    ensures KindQuery(kind).Matches(a.data) && SameChange(kind, a, b) ==> Parallel(kind, changed + [a], own + [b])
    ensures !KindQuery(kind).Matches(a.data) ==> Parallel(kind, changed + [a], own)
  {
    hide ChangeTypeFilter, KindQuery, SameChange, Select;
    SelectSnoc(changed, a, KindQuery(kind));
  }

  lemma SelectSnoc(log: seq<Event>, a: Event, q: Query)
    ensures Select(Ring(log + [a], 0), None, q, 0, |log| + 1)
         == Select(Ring(log, 0), None, q, 0, |log|) + if q.Matches(a.data) then [|log| + 1] else []
  {
    SelectPrefix(log, a, q, |log|);
  }

  lemma {:induction false} SelectPrefix(log: seq<Event>, a: Event, q: Query, hi: nat)
    requires hi <= |log|
    ensures Select(Ring(log + [a], 0), None, q, 0, hi) == Select(Ring(log, 0), None, q, 0, hi)
  {
    if hi > 0 {
      SelectPrefix(log, a, q, hi - 1);
    }
  }

  lemma {:induction false} LogsParallel(queries: seq<string>, changes: seq<Change>, q: string, kind: ChangeType)
    requires q in queries && forall c :: c in changes ==> WellSided(c.ev)
    ensures Parallel(kind, Logged(Single, NamesOf(Single, queries), changes, ChangedName(q)),
                           Logged(PerChange, NamesOf(PerChange, queries), changes, KindName(q, kind)))
  {
    hide Parallel, WellSided, SameChange, KindQuery, ChangedName, KindName;
    if changes == [] {
      NothingParallel(kind);
    } else {
      var front, c := changes[..|changes| - 1], changes[|changes| - 1];
      LogsParallel(queries, front, q, kind);
      Registered(Single, queries, q);
      Registered(PerChange, queries, q);
      NamesDiffer(q, c.ev.queryId, kind, c.ev.change);
      var changed := Logged(Single, NamesOf(Single, queries), front, ChangedName(q));
      var own := Logged(PerChange, NamesOf(PerChange, queries), front, KindName(q, kind));
      var a, b := MapFeedEvent(Single, c).value, MapFeedEvent(PerChange, c);
      BothMap(c, kind);
      if c.ev.queryId == q {
        assert Logged(Single, NamesOf(Single, queries), changes, ChangedName(q))
            == changed + [Event(a.eventId, a.timestamp, a.data)];
      }
      assert changed + [] == changed && own + [] == own;
      ParallelMore(kind, changed, own, Event(a.eventId, a.timestamp, a.data), Event(b.value.eventId, b.value.timestamp, b.value.data));
    }
  }

  lemma NothingParallel(kind: ChangeType)
    ensures Parallel(kind, [], [])
  {
  }

  /** What the two modes make of one change. */
  lemma BothMap(c: Change, kind: ChangeType)
    requires WellSided(c.ev)
    ensures MapFeedEvent(Single, c).value.name == ChangedName(c.ev.queryId)
    ensures MapFeedEvent(PerChange, c).Some? && MapFeedEvent(PerChange, c).value.name == KindName(c.ev.queryId, c.ev.change)
    ensures var a, b := MapFeedEvent(Single, c).value, MapFeedEvent(PerChange, c).value;
      && (KindQuery(kind).Matches(a.data) <==> c.ev.change == kind)
      && SameChange(c.ev.change, Event(a.eventId, a.timestamp, a.data), Event(b.eventId, b.timestamp, b.data))
  {
    hide RowsOfChanged, RowsOfKind, KindQuery;
    SingleMatches(kind, c);
    PerChangeRows(c);
  }

  /** For the same changes and nothing evicted, reading `<q>.changed` for one kind and reading that kind's own type give
      the same event ids and times in the same order, with the same rows. */
  lemma ModesAgree(queries: seq<string>, changes: seq<Change>, q: string, kind: ChangeType, epoch: u64,
                   params: Option<Value>, o1: Outcome, o2: Outcome)
    requires q in queries && forall c :: c in changes ==> WellSided(c.ev)
    requires |changes| < U64_LIMIT
    requires var changed := Ring(Logged(Single, NamesOf(Single, queries), changes, ChangedName(q)), 0);
      changed.Valid() && Reads(changed, epoch, Some(CursorStr(epoch, 0)), None, None, KindQuery(kind), o1)
    requires var own := Ring(Logged(PerChange, NamesOf(PerChange, queries), changes, KindName(q, kind)), 0);
      own.Valid() && Reads(own, epoch, Some(CursorStr(epoch, 0)), None, None, Query(params, None), o2)
    ensures var changed := Logged(Single, NamesOf(Single, queries), changes, ChangedName(q));
      var own := Logged(PerChange, NamesOf(PerChange, queries), changes, KindName(q, kind));
      && |o1.picked| == |o2.picked| == |own|
      && forall i :: 0 <= i < |own| ==>
           Ring(changed, 0).Has(o1.picked[i]) && o2.picked[i] == i + 1 && SameChange(kind, changed[o1.picked[i] - 1], own[i])
  {
    hide Logged, KindQuery, SameChange;
    CursorRoundTrip(epoch, 0);
    LogsParallel(queries, changes, q, kind);
    EverythingPicked(Ring(Logged(PerChange, NamesOf(PerChange, queries), changes, KindName(q, kind)), 0), params, o2.pos);
  }

  lemma {:induction false} EverythingPicked(r: Ring, params: Option<Value>, hi: nat)
    requires hi <= r.Head()
    ensures var picked := Select(r, None, Query(params, None), 0, hi);
      |picked| == hi && forall i :: 0 <= i < hi ==> picked[i] == i + 1
  {
    if hi > 0 {
      EverythingPicked(r, params, hi - 1);
    }
  }
}
