/** The webhook subscription store: idempotent upsert, lapsing, quota, failure streaks, verification cache. */
module Store {
  import opened Cursors
  import opened Json
  import opened Utf8
  import P = Pipeline

  /** The compound key; the derived id is an injective function of it, so records are kept by key. */
  datatype SubKey = SubKey(principal: string, url: string, name: string, paramsCanonical: string)

  datatype WebhookSub = WebhookSub(
    key: SubKey, params: Value, secret: seq<byte>, refreshBefore: Option<int>, cursor: Option<string>, active: bool,
    lastDeliveryAt: Option<int>, lastError: Option<string>, failedSince: Option<int>, verified: bool)
  {
    predicate IsLapsed(now: int) {
      refreshBefore.Some? && refreshBefore.value <= now
    }
  }

  datatype UpsertOutcome =
    | Created(sub: WebhookSub)
    | Refreshed(sub: WebhookSub)
    | QuotaExceeded(max: nat)

  datatype StoreState = StoreState(subs: map<SubKey, WebhookSub>, failures: map<SubKey, nat>, verified: set<(string, string)>)

  const EMPTY := StoreState(map[], map[], {})

  datatype Op =
    | Upsert(key: SubKey, params: Value, secret: seq<byte>, refreshBefore: Option<int>, cursor: Option<string>)
    | Remove(key: SubKey)
    | ExpireLapsed
    | MarkOk(key: SubKey)
    | MarkFailed(key: SubKey, category: string, suspendAfter: nat)
    | SetVerified(principal: string, url: string)
    | Reactivate(key: SubKey)
    | UpdateCursor(key: SubKey, cursor: Option<string>)

  /** One operation and the clock's reading it works with. An upsert reads the clock before it takes the lock, so
      readings need not come in the order in which the operations do. */
  datatype Call = Call(op: Op, now: int)

  // ----- what each operation does -----

  predicate Live(s: StoreState, key: SubKey, now: int) {
    key in s.subs && !s.subs[key].IsLapsed(now)
  }

  /** The keys that count against a principal's quota. */
  function LiveOf(s: StoreState, principal: string, now: int): set<SubKey> {
    set k | k in s.subs && k.principal == principal && !s.subs[k].IsLapsed(now)
  }

  predicate CacheHas(s: StoreState, key: SubKey) {
    (key.principal, key.url) in s.verified
  }

  /** A live key is always refreshed; any other needs room in its principal's quota. */
  predicate Accepted(max: nat, s: StoreState, key: SubKey, now: int) {
    Live(s, key, now) || |LiveOf(s, key.principal, now) - {key}| < max
  }

  function RefreshedSub(s: StoreState, op: Op): WebhookSub
    requires op.Upsert? && op.key in s.subs
  {
    s.subs[op.key].(params := op.params, secret := op.secret, refreshBefore := op.refreshBefore, active := true,
      verified := CacheHas(s, op.key))
  }

  function CreatedSub(s: StoreState, op: Op): WebhookSub
    requires op.Upsert?
  {
    WebhookSub(op.key, op.params, op.secret, op.refreshBefore, op.cursor, true, None, None, None, CacheHas(s, op.key))
  }

  function AfterFailure(sub: WebhookSub, streak: nat, category: string, suspendAfter: nat, now: int): WebhookSub {
    sub.(lastError := Some(category),
      failedSince := if sub.failedSince.None? then Some(now) else sub.failedSince,
      active := sub.active && !(suspendAfter > 0 && streak >= suspendAfter))
  }

  function StreakOf(s: StoreState, key: SubKey): nat {
    if key in s.failures then s.failures[key] else 0
  }

  function Apply(max: nat, s: StoreState, c: Call): StoreState {
    match c.op
    case Upsert(key, _, _, _, _) =>
      if !Accepted(max, s, key, c.now) then s
      else
        var sub := if Live(s, key, c.now) then RefreshedSub(s, c.op) else CreatedSub(s, c.op);
        s.(subs := s.subs[key := sub], failures := s.failures[key := 0])
    case Remove(key) => s.(subs := s.subs - {key}, failures := s.failures - {key})
    case ExpireLapsed =>
      var lapsed := Lapsed(s, c.now);
      s.(subs := s.subs - lapsed, failures := s.failures - lapsed)
    case MarkOk(key) =>
      var s1 := s.(failures := s.failures[key := 0]);
      if key !in s.subs then s1
      else s1.(subs := s.subs[key := s.subs[key].(lastDeliveryAt := Some(c.now), lastError := None, failedSince := None)])
    case MarkFailed(key, category, suspendAfter) =>
      if key !in s.subs then s
      else
        var streak := StreakOf(s, key) + 1;
        s.(subs := s.subs[key := AfterFailure(s.subs[key], streak, category, suspendAfter, c.now)],
          failures := s.failures[key := streak])
    case SetVerified(principal, url) =>
      s.(verified := s.verified + {(principal, url)}, subs := MarkVerified(s.subs, principal, url))
    case Reactivate(key) =>
      var s1 := s.(failures := s.failures[key := 0]);
      if key !in s.subs then s1 else s1.(subs := s.subs[key := s.subs[key].(active := true)])
    case UpdateCursor(key, cursor) =>
      if key !in s.subs then s else s.(subs := s.subs[key := s.subs[key].(cursor := cursor)])
  }

  function Lapsed(s: StoreState, now: int): set<SubKey> {
    set k | k in s.subs && s.subs[k].IsLapsed(now)
  }

  function MarkVerified(subs: map<SubKey, WebhookSub>, principal: string, url: string): map<SubKey, WebhookSub> {
    map k | k in subs :: if k.principal == principal && k.url == url then subs[k].(verified := true) else subs[k]
  }

  function Run(max: nat, calls: seq<Call>): StoreState {
    if calls == [] then EMPTY else Apply(max, Run(max, calls[..|calls| - 1]), calls[|calls| - 1])
  }

  /** Further calls on a store that is in state `s`. */
  function RunFrom(max: nat, s: StoreState, calls: seq<Call>): StoreState {
    if calls == [] then s else Apply(max, RunFrom(max, s, calls[..|calls| - 1]), calls[|calls| - 1])
  }

  /** Continuing a run is a longer run, so everything proved of runs holds after any further calls. */
  lemma {:induction false} RunContinues(max: nat, before: seq<Call>, calls: seq<Call>)
    ensures RunFrom(max, Run(max, before), calls) == Run(max, before + calls)
  {
    hide Apply;
    if calls == [] {
      assert before + calls == before;
    } else {
      RunContinues(max, before, calls[..|calls| - 1]);
      assert (before + calls)[..|before + calls| - 1] == before + calls[..|calls| - 1];
    }
  }

  /** The calls that the subscribe handler makes: the upsert and, while the endpoint is not verified, what others do
      during the challenge and then its outcome. */
  function HandlerCalls(max: nat, s: StoreState, upsert: Call, passes: bool, meanwhile: seq<Call>): seq<Call>
    requires upsert.op.Upsert?
  {
    if !Accepted(max, s, upsert.op.key, upsert.now) || CacheHas(s, upsert.op.key) then [upsert]
    else
      [upsert] + meanwhile +
      [Call(if passes then SetVerified(upsert.op.key.principal, upsert.op.key.url) else Remove(upsert.op.key),
            if meanwhile == [] then upsert.now else meanwhile[|meanwhile| - 1].now)]
  }

  lemma ClockIgnored(max: nat, s: StoreState, op: Op, now: int)
    requires op.SetVerified? || op.Remove?
    ensures Apply(max, s, Call(op, now)) == Apply(max, s, Call(op, 0))
  {
  }

  class SubscriptionStore {
    const maxPerPrincipal: nat
    var subs: map<SubKey, WebhookSub>
    var failures: map<SubKey, nat>
    var verified: set<(string, string)>

    ghost function State(): StoreState
      reads this
    {
      StoreState(subs, failures, verified)
    }

    constructor (maxPerPrincipal: nat)
      ensures this.maxPerPrincipal == maxPerPrincipal && State() == EMPTY
    {
      this.maxPerPrincipal := maxPerPrincipal;
      subs, failures, verified := map[], map[], {};
    }

    /** How many other live subscriptions the principal has. */
    method InUse(key: SubKey, now: int) returns (n: nat)
      ensures n == |LiveOf(State(), key.principal, now) - {key}|
    {
      var counted: set<SubKey> := {};
      var all, todo := subs, subs.Keys;
      while todo != {}
        invariant todo <= all.Keys
        invariant forall k :: k in counted <==>
          k in all && k !in todo && k.principal == key.principal && k != key && !all[k].IsLapsed(now)
        decreases todo
      {
        var k :| k in todo;
        todo := todo - {k};
        if k.principal == key.principal && k != key && !all[k].IsLapsed(now) {
          counted := counted + {k};
        }
      }
      assert counted == LiveOf(State(), key.principal, now) - {key};
      n := |counted|;
    }

    /** Creates or refreshes; a refresh reports whether the record was suspended and leaves its cursor alone. */
    method Upsert(key: SubKey, params: Value, secret: seq<byte>, refreshBefore: Option<int>, cursor: Option<string>,
                  now: int) returns (r: UpsertOutcome)
      modifies this
      ensures State() == Apply(maxPerPrincipal, old(State()), Call(Op.Upsert(key, params, secret, refreshBefore, cursor), now))
      ensures r.Refreshed? <==> Live(old(State()), key, now)
      ensures r.Refreshed? ==>
        key in subs && r.sub == subs[key].(active := old(subs[key].active)) && subs[key].cursor == old(subs[key].cursor)
      ensures r.Created? ==> key in subs && r.sub == subs[key] && subs[key].cursor == cursor
      ensures r.QuotaExceeded? <==> !Accepted(maxPerPrincipal, old(State()), key, now)
      ensures r.QuotaExceeded? ==> r.max == maxPerPrincipal && State() == old(State())
    {
      var isVerified := (key.principal, key.url) in verified;
      if key in subs && !subs[key].IsLapsed(now) {
        failures := failures[key := 0];
        var existing := subs[key];
        var prevActive := existing.active;
        existing := existing.(params := params, secret := secret, refreshBefore := refreshBefore, active := true,
          verified := isVerified);
        subs := subs[key := existing];
        return Refreshed(existing.(active := prevActive));
      }
      var inUse := InUse(key, now);
      if inUse >= maxPerPrincipal {
        return QuotaExceeded(maxPerPrincipal);
      }
      var sub := WebhookSub(key, params, secret, refreshBefore, cursor, true, None, None, None, isVerified);
      failures := failures[key := 0];
      subs := subs[key := sub];
      return Created(sub);
    }

    method Remove(key: SubKey) returns (r: Option<WebhookSub>)
      modifies this
      ensures State() == Apply(maxPerPrincipal, old(State()), Call(Op.Remove(key), 0))
      ensures r == if key in old(subs) then Some(old(subs)[key]) else None
    {
      r := if key in subs then Some(subs[key]) else None;
      failures := failures - {key};
      subs := subs - {key};
    }

    method Get(key: SubKey) returns (r: Option<WebhookSub>)
      ensures r.Some? <==> key in subs
      ensures r.Some? ==> r.value == subs[key]
    {
      r := if key in subs then Some(subs[key]) else None;
    }

    /** Every record of one event name once, the suspended ones included. */
    method ListForEvent(name: string) returns (r: seq<WebhookSub>)
      requires forall k :: k in subs ==> subs[k].key == k
      ensures forall sub :: sub in r <==> sub.key in subs && subs[sub.key] == sub && sub.key.name == name
      ensures forall i, j :: 0 <= i < j < |r| ==> r[i].key != r[j].key
    {
      r := [];
      var todo := subs.Keys;
      while todo != {}
        invariant todo <= subs.Keys
        invariant forall sub :: sub in r <==>
          sub.key in subs && sub.key !in todo && subs[sub.key] == sub && sub.key.name == name
        invariant forall i, j :: 0 <= i < j < |r| ==> r[i].key != r[j].key
        decreases todo
      {
        var k :| k in todo;
        if k.name == name {
          assert forall i :: 0 <= i < |r| ==> r[i] in r;
          r := r + [subs[k]];
        }
        todo := todo - {k};
      }
    }

    /** Removes every lapsed record, and returns each of them once. */
    method ExpireLapsed(now: int) returns (removed: seq<WebhookSub>)
      requires forall k :: k in subs ==> subs[k].key == k
      modifies this
      ensures State() == Apply(maxPerPrincipal, old(State()), Call(Op.ExpireLapsed, now))
      ensures forall sub :: sub in removed <==>
        sub.key in old(subs) && old(subs)[sub.key] == sub && sub.IsLapsed(now)
      ensures forall i, j :: 0 <= i < j < |removed| ==> removed[i].key != removed[j].key
    {
      ghost var s0 := State();
      var ids := set k | k in subs && subs[k].IsLapsed(now);
      ghost var done: set<SubKey> := {};
      removed := [];
      while ids != {}
        invariant ids !! done && ids + done == Lapsed(s0, now)
        invariant subs == s0.subs - done && failures == s0.failures - done && verified == s0.verified
        invariant forall sub :: sub in removed <==> sub.key in done && s0.subs[sub.key] == sub
        invariant forall i, j :: 0 <= i < j < |removed| ==> removed[i].key != removed[j].key
        decreases ids
      {
        var k :| k in ids;
        assert forall i :: 0 <= i < |removed| ==> removed[i] in removed;
        removed := removed + [subs[k]];
        failures := failures - {k};
        subs := subs - {k};
        ids := ids - {k};
        done := done + {k};
      }
    }

    method MarkDeliveryOk(key: SubKey, at: int)
      modifies this
      ensures State() == Apply(maxPerPrincipal, old(State()), Call(MarkOk(key), at))
    {
      failures := failures[key := 0];
      if key in subs {
        subs := subs[key := subs[key].(lastDeliveryAt := Some(at), lastError := None, failedSince := None)];
      }
    }

    method MarkDeliveryFailed(key: SubKey, category: string, at: int, suspendAfter: nat)
      modifies this
      ensures State() == Apply(maxPerPrincipal, old(State()), Call(MarkFailed(key, category, suspendAfter), at))
    {
      if key in subs {
        var sub := subs[key].(lastError := Some(category));
        if sub.failedSince.None? {
          sub := sub.(failedSince := Some(at));
        }
        var count := (if key in failures then failures[key] else 0) + 1;
        failures := failures[key := count];
        if suspendAfter > 0 && count >= suspendAfter && sub.active {
          sub := sub.(active := false);
        }
        subs := subs[key := sub];
      }
    }

    /** Fills the cache and flips the flag on every matching record. */
    method SetVerified(principal: string, url: string)
      modifies this
      ensures State() == Apply(maxPerPrincipal, old(State()), Call(Op.SetVerified(principal, url), 0))
    {
      ghost var s0 := State();
      verified := verified + {(principal, url)};
      var todo := subs.Keys;
      while todo != {}
        invariant todo <= subs.Keys == s0.subs.Keys && failures == s0.failures
        invariant verified == s0.verified + {(principal, url)}
        invariant forall k :: k in subs ==>
          subs[k] == if k in todo then s0.subs[k] else MarkVerified(s0.subs, principal, url)[k]
        decreases todo
      {
        var k :| k in todo;
        if k.principal == principal && k.url == url {
          subs := subs[k := subs[k].(verified := true)];
        }
        todo := todo - {k};
      }
      assert subs == MarkVerified(s0.subs, principal, url);
    }

    method IsVerified(principal: string, url: string) returns (r: bool)
      ensures r <==> (principal, url) in verified
    {
      r := (principal, url) in verified;
    }

    method Reactivate(key: SubKey)
      modifies this
      ensures State() == Apply(maxPerPrincipal, old(State()), Call(Op.Reactivate(key), 0))
    {
      failures := failures[key := 0];
      if key in subs {
        subs := subs[key := subs[key].(active := true)];
      }
    }

    method UpdateCursor(key: SubKey, cursor: Option<string>)
      modifies this
      ensures State() == Apply(maxPerPrincipal, old(State()), Call(Op.UpdateCursor(key, cursor), 0))
    {
      if key in subs {
        subs := subs[key := subs[key].(cursor := cursor)];
      }
    }

    /** Any calls others make. */
    method Others(calls: seq<Call>)
      requires forall k :: k in subs ==> subs[k].key == k
      modifies this
      ensures State() == RunFrom(maxPerPrincipal, old(State()), calls)
      ensures forall k :: k in subs ==> subs[k].key == k
    {
      for i := 0 to |calls|
        invariant State() == RunFrom(maxPerPrincipal, old(State()), calls[..i])
        invariant forall k :: k in subs ==> subs[k].key == k
      {
        hide RunFrom, Apply;
        ghost var s := State();
        Perform(calls[i]);
        KeysStay(maxPerPrincipal, s, calls[i]);
        RunFromSnoc(maxPerPrincipal, old(State()), calls, i);
      }
      assert calls[..|calls|] == calls;
    }

    method Perform(c: Call)
      requires forall k :: k in subs ==> subs[k].key == k
      modifies this
      ensures State() == Apply(maxPerPrincipal, old(State()), c)
    {
      hide Accepted, AfterFailure;
      match c.op {
        case Upsert(key, params, secret, refreshBefore, cursor) =>
          var _ := Upsert(key, params, secret, refreshBefore, cursor, c.now);
        case Remove(key) => var _ := Remove(key);
        case ExpireLapsed => var _ := ExpireLapsed(c.now);
        case MarkOk(key) => MarkDeliveryOk(key, c.now);
        case MarkFailed(key, category, suspendAfter) => MarkDeliveryFailed(key, category, c.now, suspendAfter);
        case SetVerified(principal, url) => SetVerified(principal, url);
        case Reactivate(key) => Reactivate(key);
        case UpdateCursor(key, cursor) => UpdateCursor(key, cursor);
      }
    }

    /** The subscribe handler's use of the store: upsert, and unless the endpoint is already verified challenge it, with
        others at work meanwhile. A failed challenge removes the record, even one that was only refreshed. */
    method HandleSubscribe(upsert: Call, passes: bool, meanwhile: seq<Call>) returns (r: Option<UpsertOutcome>)
      requires upsert.op.Upsert? && forall k :: k in subs ==> subs[k].key == k
      modifies this
      ensures State() ==
        RunFrom(maxPerPrincipal, old(State()), HandlerCalls(maxPerPrincipal, old(State()), upsert, passes, meanwhile))
      ensures r.Some? <==> Accepted(maxPerPrincipal, old(State()), upsert.op.key, upsert.now)
                           && (passes || CacheHas(old(State()), upsert.op.key))
      ensures r.Some? ==> CacheHas(State(), upsert.op.key)
      ensures Accepted(maxPerPrincipal, old(State()), upsert.op.key, upsert.now) && r.None? ==> upsert.op.key !in subs
    {
      hide RunFrom, Apply, Accepted;
      ghost var s := State();
      var key := upsert.op.key;
      var outcome := Upsert(key, upsert.op.params, upsert.op.secret, upsert.op.refreshBefore, upsert.op.cursor, upsert.now);
      ghost var s1 := State();
      UpsertSteps(maxPerPrincipal, s, upsert);
      if outcome.QuotaExceeded? {
        return None;
      }
      var verifiedAlready := IsVerified(key.principal, key.url);
      if verifiedAlready {
        return Some(outcome);
      }
      Others(meanwhile);
      ghost var s2 := State();
      ghost var later := if meanwhile == [] then upsert.now else meanwhile[|meanwhile| - 1].now;
      if passes {
        SetVerified(key.principal, key.url);
        ClockIgnored(maxPerPrincipal, s2, Op.SetVerified(key.principal, key.url), later);
        LastOfHandler(maxPerPrincipal, s, upsert, meanwhile, Call(Op.SetVerified(key.principal, key.url), later));
        return Some(outcome);
      }
      var _ := Remove(key);
      ClockIgnored(maxPerPrincipal, s2, Op.Remove(key), later);
      LastOfHandler(maxPerPrincipal, s, upsert, meanwhile, Call(Op.Remove(key), later));
      r := None;
    }
  }

  lemma KeysStay(max: nat, s: StoreState, c: Call)
    requires forall k :: k in s.subs ==> s.subs[k].key == k
    ensures var s' := Apply(max, s, c); forall k :: k in s'.subs ==> s'.subs[k].key == k
  {
    hide Accepted;
  }

  lemma RunFromSnoc(max: nat, s: StoreState, calls: seq<Call>, i: nat)
    requires i < |calls|
    ensures RunFrom(max, s, calls[..i + 1]) == Apply(max, RunFrom(max, s, calls[..i]), calls[i])
  {
    hide Apply;
    assert calls[..i + 1][..i] == calls[..i];
  }

  /** An upsert touches neither the cache nor the records' keys. */
  lemma UpsertSteps(max: nat, s: StoreState, c: Call)
    requires c.op.Upsert? && forall k :: k in s.subs ==> s.subs[k].key == k
    ensures RunFrom(max, s, [c]) == Apply(max, s, c)
    ensures Apply(max, s, c).verified == s.verified
    ensures forall k :: k in Apply(max, s, c).subs ==> Apply(max, s, c).subs[k].key == k
  {
    KeysStay(max, s, c);
    hide Accepted;
    assert [c][..0] == [];
    assert RunFrom(max, s, []) == s;
  }

  lemma {:induction false} LastOfHandler(max: nat, s: StoreState, c: Call, meanwhile: seq<Call>, last: Call)
    ensures RunFrom(max, s, [c] + meanwhile + [last]) == Apply(max, RunFrom(max, Apply(max, s, c), meanwhile), last)
    ensures last.op.SetVerified? ==>
      (last.op.principal, last.op.url) in RunFrom(max, s, [c] + meanwhile + [last]).verified
    ensures last.op.Remove? ==> last.op.key !in RunFrom(max, s, [c] + meanwhile + [last]).subs
  {
    RunFromFirst(max, s, c, meanwhile);
    var all := [c] + meanwhile + [last];
    assert all[..|all| - 1] == [c] + meanwhile;
  }

  lemma {:induction false} RunFromFirst(max: nat, s: StoreState, c: Call, calls: seq<Call>)
    ensures RunFrom(max, s, [c] + calls) == RunFrom(max, Apply(max, s, c), calls)
  {
    hide Apply;
    if calls == [] {
      assert [c] + calls == [c] && [c][..0] == [];
      assert RunFrom(max, s, []) == s;
    } else {
      RunFromFirst(max, s, c, calls[..|calls| - 1]);
      assert ([c] + calls)[..|[c] + calls| - 1] == [c] + calls[..|calls| - 1];
    }
  }

  // ----- quota over whole runs -----

  /** The readings come in the order in which the operations take the lock. */
  predicate Clocked(calls: seq<Call>) {
    forall i :: 0 < i < |calls| ==> calls[i - 1].now <= calls[i].now
  }

  lemma SubsetSize(a: set<SubKey>, b: set<SubKey>)
    requires a <= b
    ensures |a| <= |b|
  {
    if a != b {
      assert |b - a| + |a| == |b| by {
        assert (b - a) + a == b && (b - a) !! a;
      }
    }
  }

  predicate WithinQuota(max: nat, s: StoreState, principal: string, t: int) {
    |LiveOf(s, principal, t)| <= max
  }

  /** The upsert is accepted although at time `t` its key holds no place and `max` others do, and its record would be
      live at that time. */
  predicate Overshoots(max: nat, s: StoreState, c: Call, principal: string, t: int) {
    && c.op.Upsert? && c.op.key.principal == principal && Accepted(max, s, c.op.key, c.now)
    && (c.op.refreshBefore.Some? ==> t < c.op.refreshBefore.value)
    && c.op.key !in LiveOf(s, principal, t) && |LiveOf(s, principal, t)| == max
  }

  /** What an operation does to a principal's live records as of any time. */
  lemma LiveAfter(max: nat, s: StoreState, c: Call, principal: string, t: int)
    ensures var before, after := LiveOf(s, principal, t), LiveOf(Apply(max, s, c), principal, t);
            if c.op.Upsert? && c.op.key.principal == principal && Accepted(max, s, c.op.key, c.now)
               && (c.op.refreshBefore.Some? ==> t < c.op.refreshBefore.value)
            then after == before + {c.op.key}
            else after <= before
  {
    hide Accepted;
  }

  /** One operation takes a principal over its quota, as of time `t`, exactly when it overshoots. */
  lemma QuotaBrokenIff(max: nat, s: StoreState, c: Call, principal: string, t: int)
    requires WithinQuota(max, s, principal, t)
    ensures WithinQuota(max, Apply(max, s, c), principal, t) <==> !Overshoots(max, s, c, principal, t)
  {
    hide Accepted, LiveOf, Apply;
    var before, after := LiveOf(s, principal, t), LiveOf(Apply(max, s, c), principal, t);
    LiveAfter(max, s, c, principal, t);
    if after <= before {
      SubsetSize(after, before);
    }
  }

  /** No operation overshoots as of its own reading: only one whose reading is behind can. */
  lemma UpToDateKeeps(max: nat, s: StoreState, c: Call, principal: string)
    ensures !Overshoots(max, s, c, principal, c.now)
  {
    if c.op.Upsert? && c.op.key !in LiveOf(s, principal, c.now) {
      assert LiveOf(s, principal, c.now) - {c.op.key} == LiveOf(s, principal, c.now);
    }
  }

  /** The latest reading of the clock so far. */
  function Latest(calls: seq<Call>): (t: int)
    requires calls != []
    ensures forall i :: 0 <= i < |calls| ==> calls[i].now <= t
    ensures exists i :: 0 <= i < |calls| && calls[i].now == t
  {
    var last := calls[|calls| - 1].now;
    if |calls| == 1 then last
    else
      var t := Latest(calls[..|calls| - 1]);
      assert exists i :: 0 <= i < |calls| - 1 && calls[i].now == t;
      if t < last then last else t
  }

  /** After each of the first `n` operations the principal is within its quota as of the latest reading. */
  ghost predicate KeptSoFar(max: nat, calls: seq<Call>, principal: string, n: nat)
    requires n <= |calls|
  {
    forall i :: 0 < i <= n ==> WithinQuota(max, Run(max, calls[..i]), principal, Latest(calls[..i]))
  }

  /** The `i`-th operation overshoots as of the latest reading. */
  predicate OvershootsAt(max: nat, calls: seq<Call>, principal: string, i: nat)
    requires i < |calls|
  {
    Overshoots(max, Run(max, calls[..i]), calls[i], principal, Latest(calls[..i + 1]))
  }

  lemma LaterKeeps(max: nat, s: StoreState, principal: string, t: int, t': int)
    requires WithinQuota(max, s, principal, t) && t <= t'
    ensures WithinQuota(max, s, principal, t')
  {
    SubsetSize(LiveOf(s, principal, t'), LiveOf(s, principal, t));
  }

  lemma KeptStep(max: nat, calls: seq<Call>, principal: string, n: nat)
    requires n < |calls| && KeptSoFar(max, calls, principal, n)
    ensures KeptSoFar(max, calls, principal, n + 1) <==> !OvershootsAt(max, calls, principal, n)
  {
    hide Apply, Overshoots, LiveOf, WithinQuota;
    var s, t := Run(max, calls[..n]), Latest(calls[..n + 1]);
    assert calls[..n + 1][..n] == calls[..n];
    if n > 0 {
      var i :| 0 <= i < n && calls[..n][i].now == Latest(calls[..n]);
      assert calls[..n + 1][i].now <= t;
      LaterKeeps(max, s, principal, Latest(calls[..n]), t);
    } else {
      NobodyAtFirst(max, principal, t);
    }
    QuotaBrokenIff(max, s, calls[n], principal, t);
  }

  lemma NobodyAtFirst(max: nat, principal: string, t: int)
    ensures WithinQuota(max, EMPTY, principal, t)
  {
    assert LiveOf(EMPTY, principal, t) == {};
  }

  /** Over a whole run, whatever the order of the readings: a principal is within its quota throughout, as of the latest
      reading, exactly when no operation overshoots. */
  lemma {:induction false} QuotaHoldsIff(max: nat, calls: seq<Call>, principal: string, n: nat)
    requires n <= |calls|
    ensures KeptSoFar(max, calls, principal, n) <==> forall i :: 0 <= i < n ==> !OvershootsAt(max, calls, principal, i)
  {
    hide OvershootsAt;
    if n > 0 {
      QuotaHoldsIff(max, calls, principal, n - 1);
      if KeptSoFar(max, calls, principal, n - 1) {
        KeptStep(max, calls, principal, n - 1);
      }
    }
  }

  /** With readings in the order of the lock, no principal ever has more live subscriptions than the quota allows. */
  lemma QuotaHolds(max: nat, calls: seq<Call>, principal: string, now: int)
    requires Clocked(calls) && forall i :: 0 <= i < |calls| ==> calls[i].now <= now
    ensures WithinQuota(max, Run(max, calls), principal, now)
  {
    hide WithinQuota, Overshoots;
    forall i | 0 <= i < |calls| ensures !OvershootsAt(max, calls, principal, i) {
      LatestIsLast(calls, i + 1);
      UpToDateKeeps(max, Run(max, calls[..i]), calls[i], principal);
    }
    QuotaHoldsIff(max, calls, principal, |calls|);
    if calls != [] {
      assert calls[..|calls|] == calls;
      LaterKeeps(max, Run(max, calls), principal, Latest(calls), now);
    } else {
      NobodyAtFirst(max, principal, now);
    }
  }

  lemma {:induction false} LatestIsLast(calls: seq<Call>, n: nat)
    requires Clocked(calls) && 0 < n <= |calls|
    ensures Latest(calls[..n]) == calls[n - 1].now
  {
    if n > 1 {
      LatestIsLast(calls, n - 1);
      assert calls[..n][..n - 1] == calls[..n - 1];
    }
  }

  /** Each operation read the clock no later than it took the lock, and the locks were taken in this order: the clock is
      steady, and yet the readings may come out of order. */
  predicate Steady(calls: seq<Call>, locked: seq<int>) {
    && |locked| == |calls|
    && (forall i :: 0 <= i < |calls| ==> calls[i].now <= locked[i])
    && (forall i :: 0 < i < |locked| ==> locked[i - 1] <= locked[i])
  }

  /** A race that breaks the quota under a steady clock. A refresh reads the clock while its record still lives and then
      waits for the lock; the record lapses, another takes its place, and the refresh brings it back: two where one is
      allowed. */
  lemma RaceBreaksQuota(a: SubKey, b: SubKey)
    requires a != b && a.principal == b.principal
    ensures var calls := [Call(Upsert(a, Null, [], Some(11), None), 5), Call(Upsert(b, Null, [], Some(30), None), 20),
                          Call(Upsert(a, Null, [], Some(30), None), 10)];
      Steady(calls, [5, 20, 21]) && LiveOf(Run(1, calls), a.principal, 21) == {a, b}
  {
    hide Apply, LiveOf;
    var c1, c2 := Call(Upsert(a, Null, [], Some(11), None), 5), Call(Upsert(b, Null, [], Some(30), None), 20);
    var c3 := Call(Upsert(a, Null, [], Some(30), None), 10);
    RunThree(1, c1, c2, c3);
    FirstCreate(a, c1);
    SecondComesBack(a, b, Apply(1, EMPTY, c1), c2, c3);
  }

  lemma RunThree(max: nat, c1: Call, c2: Call, c3: Call)
    ensures Run(max, [c1, c2, c3]) == Apply(max, Apply(max, Apply(max, EMPTY, c1), c2), c3)
  {
    hide Apply;
    assert [c1, c2, c3][..2] == [c1, c2] && [c1, c2][..1] == [c1] && [c1][..0] == [];
    assert Run(max, [c1]) == Apply(max, EMPTY, c1);
    assert Run(max, [c1, c2]) == Apply(max, Run(max, [c1]), c2);
  }

  lemma SecondComesBack(a: SubKey, b: SubKey, s1: StoreState, c2: Call, c3: Call)
    requires a != b && a.principal == b.principal && s1.subs.Keys == {a} && s1.subs[a].refreshBefore == Some(11)
    requires c2 == Call(Upsert(b, Null, [], Some(30), None), 20) && c3 == Call(Upsert(a, Null, [], Some(30), None), 10)
    ensures LiveOf(Apply(1, Apply(1, s1, c2), c3), a.principal, 21) == {a, b}
  {
    assert LiveOf(s1, b.principal, 20) - {b} == {};
    var s2 := Apply(1, s1, c2);
    assert Live(s2, a, 10);
    assert Apply(1, s2, c3).subs.Keys == {a, b};
  }

  lemma FirstCreate(key: SubKey, c: Call)
    requires c.op.Upsert? && c.op.key == key
    ensures var s := Apply(1, EMPTY, c); s.subs.Keys == {key} && s.subs[key].refreshBefore == c.op.refreshBefore
  {
    assert LiveOf(EMPTY, key.principal, c.now) - {key} == {};
  }

  // ----- bookkeeping against the history -----

  datatype Mark = StreakReset | FailureReset

  /** What ends a failure streak (create, refresh, success, reactivation), or the period of failing (create, success). */
  predicate Cuts(mark: Mark, max: nat, s: StoreState, c: Call, key: SubKey) {
    match c.op
    case Upsert(k, _, _, _, _) => k == key && Accepted(max, s, key, c.now) && (mark.StreakReset? || !Live(s, key, c.now))
    case MarkOk(k) => k == key
    case Reactivate(k) => k == key && mark.StreakReset?
    case _ => false
  }

  /** The calls after the last one that cuts. */
  function Since(mark: Mark, max: nat, calls: seq<Call>, key: SubKey): seq<Call> {
    if calls == [] then []
    else
      var front, last := calls[..|calls| - 1], calls[|calls| - 1];
      if Cuts(mark, max, Run(max, front), last, key) then [] else Since(mark, max, front, key) + [last]
  }

  /** When deliveries for `key` failed. */
  function FailureTimes(calls: seq<Call>, key: SubKey): seq<int> {
    if calls == [] then []
    else
      var last := calls[|calls| - 1];
      FailureTimes(calls[..|calls| - 1], key) + if last.op.MarkFailed? && last.op.key == key then [last.now] else []
  }

  function First(times: seq<int>): Option<int> {
    if times == [] then None else Some(times[0])
  }

  /** A record whose streak is `streak` and whose period of failing began with `first`. */
  ghost predicate Records(s: StoreState, key: SubKey, streak: nat, first: Option<int>) {
    key in s.subs ==>
      && s.subs[key].key == key
      && (s.subs[key].verified <==> CacheHas(s, key))
      && key in s.failures && s.failures[key] == streak
      && s.subs[key].failedSince == first
      && (s.subs[key].failedSince.Some? <==> s.subs[key].lastError.Some?)
  }

  predicate Fails(c: Call, key: SubKey) {
    c.op.MarkFailed? && c.op.key == key
  }

  lemma RecordsStep(max: nat, s: StoreState, c: Call, key: SubKey, streak: nat, first: Option<int>)
    requires Records(s, key, streak, first)
    ensures Records(Apply(max, s, c), key,
      if Cuts(StreakReset, max, s, c, key) then 0 else if Fails(c, key) then streak + 1 else streak,
      if Cuts(FailureReset, max, s, c, key) then None else if Fails(c, key) && first.None? then Some(c.now) else first)
  {
    hide Accepted;
  }

  /** The failures since the last reset, and the first since the last create or success. */
  function Failures(max: nat, calls: seq<Call>, key: SubKey): nat {
    |FailureTimes(Since(StreakReset, max, calls, key), key)|
  }

  function FailingSince(max: nat, calls: seq<Call>, key: SubKey): Option<int> {
    First(FailureTimes(Since(FailureReset, max, calls, key), key))
  }

  lemma TimesMore(calls: seq<Call>, c: Call, key: SubKey)
    ensures FailureTimes(calls + [c], key) == FailureTimes(calls, key) + if Fails(c, key) then [c.now] else []
  {
    assert (calls + [c])[..|calls|] == calls;
  }

  /** In every reachable state every record agrees with its history. */
  lemma {:induction false} BookkeepingFaithful(max: nat, calls: seq<Call>, key: SubKey)
    ensures Records(Run(max, calls), key, Failures(max, calls, key), FailingSince(max, calls, key))
    decreases |calls|
  {
    hide Apply, Cuts, Records;
    if calls != [] {
      var front, last := calls[..|calls| - 1], calls[|calls| - 1];
      BookkeepingFaithful(max, front, key);
      RecordsStep(max, Run(max, front), last, key, Failures(max, front, key), FailingSince(max, front, key));
      TimesMore(Since(StreakReset, max, front, key), last, key);
      TimesMore(Since(FailureReset, max, front, key), last, key);
    } else {
      NothingRecorded(key);
    }
  }

  lemma NothingRecorded(key: SubKey)
    ensures Records(EMPTY, key, 0, None)
  {
  }

  /** The cache holds exactly the endpoints that were verified. */
  lemma {:induction false} CacheIsHistory(max: nat, calls: seq<Call>, principal: string, url: string)
    ensures (principal, url) in Run(max, calls).verified <==>
      exists i :: 0 <= i < |calls| && calls[i].op == SetVerified(principal, url)
    decreases |calls|
  {
    hide Apply;
    if calls != [] {
      var front, last := calls[..|calls| - 1], calls[|calls| - 1];
      CacheIsHistory(max, front, principal, url);
      CacheStep(max, Run(max, front), last);
      assert calls[|calls| - 1] == last;
      assert forall i :: 0 <= i < |front| ==> calls[i] == front[i];
    }
  }

  lemma CacheStep(max: nat, s: StoreState, c: Call)
    ensures Apply(max, s, c).verified
         == if c.op.SetVerified? then s.verified + {(c.op.principal, c.op.url)} else s.verified
  {
  }

  /** A record's cursor moves only when the delivery task moves it or a lapsed record is created anew: never by a refresh. */
  lemma CursorMovesOnlyBy(max: nat, s: StoreState, c: Call, key: SubKey)
    requires key in s.subs && key in Apply(max, s, c).subs && Apply(max, s, c).subs[key].cursor != s.subs[key].cursor
    ensures (c.op.UpdateCursor? || c.op.Upsert?) && c.op.key == key
    ensures c.op.Upsert? ==> s.subs[key].IsLapsed(c.now)
  {
    hide Accepted;
  }

  /** Under one suspension threshold, an active record's streak is below it. */
  lemma {:induction false} ActiveMeansBelow(max: nat, calls: seq<Call>, key: SubKey, suspendAfter: nat)
    requires suspendAfter > 0
    requires forall i :: 0 <= i < |calls| && calls[i].op.MarkFailed? ==> calls[i].op.suspendAfter == suspendAfter
    ensures var s := Run(max, calls); key in s.subs && s.subs[key].active ==> StreakOf(s, key) < suspendAfter
    decreases |calls|
  {
    hide Apply;
    if calls != [] {
      var front, last := calls[..|calls| - 1], calls[|calls| - 1];
      ActiveMeansBelow(max, front, key, suspendAfter);
      BelowStep(max, Run(max, front), last, key, suspendAfter);
    }
  }

  lemma BelowStep(max: nat, s: StoreState, c: Call, key: SubKey, suspendAfter: nat)
    requires suspendAfter > 0 && (c.op.MarkFailed? ==> c.op.suspendAfter == suspendAfter)
    requires key in s.subs && s.subs[key].active ==> StreakOf(s, key) < suspendAfter
    ensures var s' := Apply(max, s, c); key in s'.subs && s'.subs[key].active ==> StreakOf(s', key) < suspendAfter
  {
    hide Accepted;
  }

  // ----- an upsert, field by field -----

  /** An upsert is refused exactly when its key has no live record and the principal has `max` live ones of other keys. */
  lemma RefusedIff(max: nat, s: StoreState, c: Call)
    requires c.op.Upsert?
    ensures !Accepted(max, s, c.op.key, c.now) <==>
      && !(c.op.key in s.subs && !s.subs[c.op.key].IsLapsed(c.now))
      && |set k | k in s.subs && k.principal == c.op.key.principal && k != c.op.key && !s.subs[k].IsLapsed(c.now)| >= max
  {
    assert (set k | k in s.subs && k.principal == c.op.key.principal && k != c.op.key && !s.subs[k].IsLapsed(c.now))
        == LiveOf(s, c.op.key.principal, c.now) - {c.op.key};
  }

  /** A refresh adopts the new params, secret and lifetime, wakes the record and keeps its cursor and delivery record; a
      fresh record has nothing but what it was created with. Either way no other key changes. */
  lemma UpsertFields(max: nat, s: StoreState, c: Call)
    requires c.op.Upsert? && Accepted(max, s, c.op.key, c.now)
    ensures var key, s' := c.op.key, Apply(max, s, c);
      && key in s'.subs && key in s'.failures && s'.failures[key] == 0 && s'.verified == s.verified
      && s'.subs[key] ==
           (if key in s.subs && !s.subs[key].IsLapsed(c.now)
            then s.subs[key].(params := c.op.params, secret := c.op.secret, refreshBefore := c.op.refreshBefore, active := true,
                              verified := (key.principal, key.url) in s.verified)
            else WebhookSub(key, c.op.params, c.op.secret, c.op.refreshBefore, c.op.cursor, true, None, None, None,
                            (key.principal, key.url) in s.verified))
      && forall k :: k != key ==> (k in s'.subs <==> k in s.subs) && (k in s.subs ==> s'.subs[k] == s.subs[k])
  {
    hide Accepted;
  }

  // ----- the rest of a record against the history -----

  /** What the last accepted upsert of a key said. */
  function Subscribed(max: nat, calls: seq<Call>, key: SubKey): Option<Op> {
    if calls == [] then None
    else
      var front, last := calls[..|calls| - 1], calls[|calls| - 1];
      if last.op.Upsert? && last.op.key == key && Accepted(max, Run(max, front), key, last.now) then Some(last.op)
      else Subscribed(max, front, key)
  }

  /** When the last delivery since the record was created succeeded. */
  function DeliveredAt(max: nat, calls: seq<Call>, key: SubKey): Option<int> {
    if calls == [] then None
    else
      var front, last := calls[..|calls| - 1], calls[|calls| - 1];
      if last.op.MarkOk? && last.op.key == key then Some(last.now)
      else if Creates(max, Run(max, front), last, key) then None
      else DeliveredAt(max, front, key)
  }

  predicate Creates(max: nat, s: StoreState, c: Call, key: SubKey) {
    c.op.Upsert? && c.op.key == key && Accepted(max, s, key, c.now) && !Live(s, key, c.now)
  }

  /** What the last failure since the record was created or last delivered to was called. */
  function FailedWith(max: nat, calls: seq<Call>, key: SubKey): Option<string> {
    if calls == [] then None
    else
      var front, last := calls[..|calls| - 1], calls[|calls| - 1];
      if Fails(last, key) then Some(last.op.category)
      else if Cuts(FailureReset, max, Run(max, front), last, key) then None
      else FailedWith(max, front, key)
  }

  /** Since the record was last created, refreshed or reactivated, no failure brought its streak to its threshold. */
  predicate NeverSuspended(max: nat, calls: seq<Call>, key: SubKey) {
    if calls == [] then true
    else
      var front, last := calls[..|calls| - 1], calls[|calls| - 1];
      if Wakes(max, Run(max, front), last, key) then true
      else
        && NeverSuspended(max, front, key)
        && (Fails(last, key) && last.op.suspendAfter > 0 ==> Failures(max, calls, key) < last.op.suspendAfter)
  }

  predicate Wakes(max: nat, s: StoreState, c: Call, key: SubKey) {
    match c.op
    case Upsert(k, _, _, _, _) => k == key && Accepted(max, s, key, c.now)
    case Reactivate(k) => k == key
    case _ => false
  }

  /** A record with these fields. */
  ghost predicate Holds(s: StoreState, key: SubKey, subscribed: Option<Op>, deliveredAt: Option<int>, failedWith: Option<string>,
                        active: bool) {
    key in s.subs ==>
      && subscribed.Some? && subscribed.value.Upsert?
      && s.subs[key].params == subscribed.value.params && s.subs[key].secret == subscribed.value.secret
      && s.subs[key].refreshBefore == subscribed.value.refreshBefore
      && s.subs[key].lastDeliveryAt == deliveredAt && s.subs[key].lastError == failedWith
      && s.subs[key].active == active
  }

  lemma HoldsStep(max: nat, s: StoreState, c: Call, key: SubKey, subscribed: Option<Op>, deliveredAt: Option<int>,
                  failedWith: Option<string>, active: bool, streak: nat)
    requires Holds(s, key, subscribed, deliveredAt, failedWith, active)
    requires key in s.subs ==> StreakOf(s, key) == streak
    ensures Holds(Apply(max, s, c), key,
      if c.op.Upsert? && c.op.key == key && Accepted(max, s, key, c.now) then Some(c.op) else subscribed,
      if c.op.MarkOk? && c.op.key == key then Some(c.now) else if Creates(max, s, c, key) then None else deliveredAt,
      if Fails(c, key) then Some(c.op.category) else if Cuts(FailureReset, max, s, c, key) then None else failedWith,
      if Wakes(max, s, c, key) then true
      else active && (Fails(c, key) && c.op.suspendAfter > 0 ==> streak + 1 < c.op.suspendAfter))
  {
    hide Accepted;
  }

  /** In every reachable state, every record holds what the last accepted upsert of its key said, the time of its last
      success and the category of its last failure, and it is suspended exactly when a failure brought its streak to the
      threshold since it was last created, refreshed or reactivated. */
  lemma {:induction false} RecordIsHistory(max: nat, calls: seq<Call>, key: SubKey)
    ensures Holds(Run(max, calls), key, Subscribed(max, calls, key), DeliveredAt(max, calls, key), FailedWith(max, calls, key),
                  NeverSuspended(max, calls, key))
    decreases |calls|
  {
    hide Apply, Cuts, Records, Holds, Accepted, Failures, Creates, Wakes;
    if calls != [] {
      var front, last := calls[..|calls| - 1], calls[|calls| - 1];
      var s := Run(max, front);
      RecordIsHistory(max, front, key);
      BookkeepingFaithful(max, front, key);
      StreakIsFailures(s, key, Failures(max, front, key), FailingSince(max, front, key));
      FailuresMore(max, calls, key);
      HoldsStep(max, s, last, key, Subscribed(max, front, key), DeliveredAt(max, front, key), FailedWith(max, front, key),
                NeverSuspended(max, front, key), Failures(max, front, key));
    } else {
      NothingHeld(key);
    }
  }

  lemma NothingHeld(key: SubKey)
    ensures Holds(EMPTY, key, None, None, None, true)
  {
  }

  lemma StreakIsFailures(s: StoreState, key: SubKey, streak: nat, first: Option<int>)
    requires Records(s, key, streak, first)
    ensures key in s.subs ==> StreakOf(s, key) == streak
  {
  }

  lemma FailuresMore(max: nat, calls: seq<Call>, key: SubKey)
    requires calls != []
    ensures var last := calls[|calls| - 1];
      Fails(last, key) ==> Failures(max, calls, key) == Failures(max, calls[..|calls| - 1], key) + 1
  {
    hide Run;
    var front, last := calls[..|calls| - 1], calls[|calls| - 1];
    TimesMore(Since(StreakReset, max, front, key), last, key);
  }

  // ----- the record the delivery pipeline works with -----

  /** What the pipeline sees of one subscription. */
  function Slot(s: StoreState, key: SubKey): Option<P.Sub> {
    if key in s.subs then Some(P.Sub(s.subs[key].cursor, s.subs[key].active, s.subs[key].verified, StreakOf(s, key)))
    else None
  }

  ghost predicate Shows(s: StoreState, key: SubKey, w: P.World) {
    w.slot == Slot(s, key) && w.cacheVerified == CacheHas(s, key) && (w.slot.Some? ==> w.slot.value.verified == w.cacheVerified)
  }

  /** An operation that names another subscription, or expires nothing of this one, leaves this one alone. */
  lemma OthersUntouched(max: nat, s: StoreState, c: Call, key: SubKey)
    requires match c.op
             case ExpireLapsed => true
             case SetVerified(_, _) => false
             case _ => c.op.key != key
    ensures var s' := Apply(max, s, c);
      if c.op.ExpireLapsed? && key in s.subs && s.subs[key].IsLapsed(c.now) then key !in s'.subs && s'.verified == s.verified
      else Slot(s', key) == Slot(s, key) && s'.verified == s.verified && (key in s.subs ==> key in s'.subs && s'.subs[key] == s.subs[key])
  {
    hide Accepted, AfterFailure;
  }

  /** What an operation on the key itself leaves for the pipeline to see. */
  lemma OwnRecord(max: nat, s: StoreState, c: Call)
    requires !c.op.ExpireLapsed? && !c.op.SetVerified?
    ensures var key, s' := c.op.key, Apply(max, s, c); var slot := Slot(s, key);
      (CacheHas(s', key) <==> CacheHas(s, key)) &&
      match c.op
      case Upsert(_, _, _, _, cursor) =>
        Slot(s', key) == if !Accepted(max, s, key, c.now) then slot
                         else Some(P.Sub(if Live(s, key, c.now) then slot.value.cursor else cursor, true, CacheHas(s, key), 0))
      case Remove(_) => Slot(s', key) == None
      case MarkOk(_) => Slot(s', key) == if slot.Some? then Some(slot.value.(streak := 0)) else None
      case MarkFailed(_, _, n) =>
        Slot(s', key) == if slot.None? then None
                         else Some(slot.value.(streak := slot.value.streak + 1,
                                               active := slot.value.active && !(n > 0 && slot.value.streak + 1 >= n)))
      case Reactivate(_) => Slot(s', key) == if slot.Some? then Some(slot.value.(streak := 0, active := true)) else None
      case UpdateCursor(_, cursor) => Slot(s', key) == if slot.Some? then Some(slot.value.(cursor := cursor)) else None
  {
    hide Accepted;
  }

  /** For its own subscription, an upsert of a live key is the pipeline's refresh; one that is accepted otherwise is its
      create, fresh or over a running task; one that is refused is nothing. */
  lemma UpsertIsSlotStep(max: nat, s: StoreState, c: Call, w: P.World, pos: nat)
    requires c.op.Upsert? && Shows(s, c.op.key, w)
    ensures !Accepted(max, s, c.op.key, c.now) ==> Apply(max, s, c) == s
    ensures Live(s, c.op.key, c.now) ==> Shows(Apply(max, s, c), c.op.key, P.Refreshed(w))
    ensures Accepted(max, s, c.op.key, c.now) && !Live(s, c.op.key, c.now) ==>
      && Shows(Apply(max, s, c), c.op.key, P.Created(w, c.op.cursor, pos))
      && (c.op.cursor.Some? ==> Shows(Apply(max, s, c), c.op.key, P.CreatedOver(w, c.op.cursor.value, pos)))
  {
    hide Apply, CacheHas, LiveOf, Shows, P.Created, P.CreatedOver, P.Refreshed;
    if !Accepted(max, s, c.op.key, c.now) {
      Refused(max, s, c);
    } else if Live(s, c.op.key, c.now) {
      UpsertRefreshes(max, s, c, w);
    } else {
      UpsertCreates(max, s, c, w, pos);
    }
  }

  lemma UpsertRefreshes(max: nat, s: StoreState, c: Call, w: P.World)
    requires c.op.Upsert? && Shows(s, c.op.key, w) && Live(s, c.op.key, c.now)
    ensures Accepted(max, s, c.op.key, c.now) && Shows(Apply(max, s, c), c.op.key, P.Refreshed(w))
  {
    OwnRecord(max, s, c);
    hide Apply, CacheHas, LiveOf;
  }

  lemma UpsertCreates(max: nat, s: StoreState, c: Call, w: P.World, pos: nat)
    requires c.op.Upsert? && Shows(s, c.op.key, w) && Accepted(max, s, c.op.key, c.now) && !Live(s, c.op.key, c.now)
    ensures Shows(Apply(max, s, c), c.op.key, P.Created(w, c.op.cursor, pos))
    ensures c.op.cursor.Some? ==> Shows(Apply(max, s, c), c.op.key, P.CreatedOver(w, c.op.cursor.value, pos))
  {
    OwnRecord(max, s, c);
    hide Apply, CacheHas, LiveOf, Accepted;
  }

  lemma Refused(max: nat, s: StoreState, c: Call)
    requires c.op.Upsert? && !Accepted(max, s, c.op.key, c.now)
    ensures Apply(max, s, c) == s
  {
    hide Accepted;
  }

  /** A delivery's outcome is the pipeline's bookkeeping after a POST. */
  lemma OutcomeIsSlotStep(max: nat, s: StoreState, c: Call, w: P.World, x: P.Post)
    requires (c.op.MarkOk? || c.op.MarkFailed?) && Shows(s, c.op.key, w) && x.Post? && x.ok == c.op.MarkOk?
    ensures Shows(Apply(max, s, c), c.op.key, P.PostMarked(w, x, if c.op.MarkOk? then 0 else c.op.suspendAfter))
  {
    OwnRecord(max, s, c);
    hide Apply, CacheHas;
  }

  /** Removal, reactivation and the watermark's update are the pipeline's steps too. */
  lemma RemoveIsSlotStep(max: nat, s: StoreState, c: Call, w: P.World)
    requires c.op.Remove? && Shows(s, c.op.key, w)
    ensures Shows(Apply(max, s, c), c.op.key, P.Removed(w))
  {
    OwnRecord(max, s, c);
    hide Apply, CacheHas;
  }

  lemma ReactivateIsSlotStep(max: nat, s: StoreState, c: Call, w: P.World)
    requires c.op.Reactivate? && Shows(s, c.op.key, w)
    ensures w.slot.Some? ==> Shows(Apply(max, s, c), c.op.key, P.Refreshed(w))
    ensures w.slot.None? ==> Shows(Apply(max, s, c), c.op.key, w)
  {
    OwnRecord(max, s, c);
    hide Apply, CacheHas, Slot;
    if w.slot.Some? {
      RefreshedRecord(w);
    }
  }

  lemma RefreshedRecord(w: P.World)
    requires w.slot.Some?
    ensures P.Refreshed(w).slot == Some(P.Sub(w.slot.value.cursor, true, w.cacheVerified, 0))
    ensures P.Refreshed(w).cacheVerified == w.cacheVerified
  {
  }

  lemma CursorIsSlotStep(max: nat, s: StoreState, c: Call, w: P.World)
    requires c.op.UpdateCursor? && c.op.cursor.Some? && Shows(s, c.op.key, w)
    ensures Shows(Apply(max, s, c), c.op.key, P.MarkedAt(w, c.op.cursor.value))
  {
    OwnRecord(max, s, c);
    hide Apply, CacheHas;
  }

  lemma VerifyIsSlotStep(max: nat, s: StoreState, c: Call, key: SubKey, w: P.World)
    requires Shows(s, key, w) && c.op.SetVerified?
    ensures Shows(Apply(max, s, c), key, if (c.op.principal, c.op.url) == (key.principal, key.url) then P.Verified(w) else w)
  {
  }
}
