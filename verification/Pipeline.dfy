/** One webhook subscription's delivery pipeline as a state: store record, fan-out, bounded queue, delivery task. */
module Pipeline {
  import opened Cursors
  import opened Log
  import opened Buffer

  const DELIVERY_QUEUE_CAPACITY: nat := 1024
  const MAX_RETRIES: nat := 3

  /** The store's record of the subscription; `streak` is its consecutive-failure count. */
  datatype Sub = Sub(cursor: Option<string>, active: bool, verified: bool, streak: nat)

  datatype Item =
    | EventItem(seqNo: nat, occ: EventOccurrence)
    | GapItem(seqNo: nat, cursor: string)

  /** Where the fan-out loop is with the item it received. */
  datatype FanPhase =
    | Idle
    | Lagged
    | Holding(item: Item)
    | Ready(item: Item)
    | Ensured(item: Item)
    | Sending(item: Item)
    | Reopening(item: Item)
    | Resending(item: Item)

  /** A message for the endpoint, with the positions it stands for: an event and the cursor after it, or a gap. */
  datatype Message =
    | EventMessage(seqNo: nat, pos: nat, occ: EventOccurrence)
    | GapMessage(from: nat, pos: nat, cursor: string)

  /** What a message settles once it is acked or abandoned: one event, or all that is skipped in `(from, pos]`. */
  datatype Topic = OfEvent(seqNo: nat) | GapOver(from: nat, pos: nat)

  /** The history: a POST, its outcome, and whether the subscription was suspended then; a reset of the failure streak;
      a record created, at which position and whether over a delivery task that was still running; a delivery task that
      chose its own start because the record had no cursor. */
  datatype Post =
    | Post(msg: Message, ok: bool, retryable: bool, suspended: bool)
    | Reset
    | Recorded(start: Option<nat>, over: bool)
    | Began(from: nat)

  /** The state that the tasks share, and what is known about it.
      - `slot`, `cacheVerified`: the store's record and its verification cache;
      - `alive`, `closing`, `queue`: whether a delivery task runs, whether its sender was dropped, its queue;
      - `rx`, `phase`, `owed`, `fanned`: the fan-out's receiver, its loop, the owed gap, and how far it got for this subscription;
      - `missed`: whether the fan-out passed by an item, for want of a record, since the task began to drain its queue;
      - `started`, `queueing`, `at`, `inHand`, `handling`: the task's progress: everything up to `at` is settled, and
        the item in hand is being handled;
      - `seed`, `mark`: the position the promise starts from, and the stored watermark;
      - `acked`, `gapped`: events acked or abandoned, and events under a gap envelope acked or abandoned;
      - `posts`: the history. */
  datatype World = World(
    slot: Option<Sub>, cacheVerified: bool,
    alive: bool, closing: bool, queue: seq<Item>,
    rx: nat, phase: FanPhase, owed: bool, fanned: nat, missed: bool,
    started: bool, queueing: bool, at: nat, inHand: Option<Item>, handling: bool,
    seed: nat, mark: nat, acked: set<nat>, gapped: set<nat>, posts: seq<Post>)

  function Max(a: nat, b: nat): nat {
    if a < b then b else a
  }

  ghost predicate NoneBetween(r: Ring, q: Query, lo: nat, hi: nat) {
    forall s :: lo < s < hi ==> !r.Matching(q, s)
  }

  /** The item leaves no matching event out after `c`: an event is the next one, a gap covers the rest. */
  ghost predicate Follows(r: Ring, q: Query, c: nat, x: Item) {
    x.EventItem? ==> NoneBetween(r, q, c, x.seqNo)
  }

  /** From position `c` the items leave no matching event out. */
  ghost predicate Chain(r: Ring, q: Query, c: nat, items: seq<Item>)
    decreases |items|
  {
    items == [] ||
    (Follows(r, q, c, items[0]) && Chain(r, q, Max(c, items[0].seqNo), items[1..]))
  }

  function Reach(c: nat, items: seq<Item>): (n: nat)
    ensures c <= n
    decreases |items|
  {
    if items == [] then c else Reach(Max(c, items[0].seqNo), items[1..])
  }

  /** The items, and the gap owed if there is one, take a task at `c` past all matching events up to `fanned`. */
  ghost predicate Covers(r: Ring, q: Query, c: nat, items: seq<Item>, owed: bool, fanned: nat) {
    Chain(r, q, c, items) && (!owed ==> NoneBetween(r, q, Reach(c, items), fanned + 1))
  }

  lemma {:induction false} ChainAppend(r: Ring, q: Query, c: nat, items: seq<Item>, x: Item)
    ensures Reach(c, items + [x]) == Max(Reach(c, items), x.seqNo)
    ensures Chain(r, q, c, items) && Follows(r, q, Reach(c, items), x) ==>
      Chain(r, q, c, items + [x])
    decreases |items|
  {
    hide Follows;
    if items == [] {
      assert items + [x] == [x];
    } else {
      ChainAppend(r, q, Max(c, items[0].seqNo), items[1..], x);
      assert (items + [x])[1..] == items[1..] + [x];
    }
  }

  /** Further on, less is asked of the items. */
  lemma {:induction false} ChainHigher(r: Ring, q: Query, c: nat, c': nat, items: seq<Item>)
    requires c <= c' && Chain(r, q, c, items)
    ensures Chain(r, q, c', items) && Reach(c, items) <= Reach(c', items)
    decreases |items|
  {
    if items != [] {
      ChainHigher(r, q, Max(c, items[0].seqNo), Max(c', items[0].seqNo), items[1..]);
    }
  }

  lemma CoversHigher(r: Ring, q: Query, c: nat, c': nat, items: seq<Item>, owed: bool, fanned: nat)
    requires c <= c' && Covers(r, q, c, items, owed, fanned)
    ensures Covers(r, q, c', items, owed, fanned)
  {
    ChainHigher(r, q, c, c', items);
  }

  lemma NoneBetweenStable(r: Ring, r': Ring, q: Query, lo: nat, hi: nat)
    requires Evolves(r, r') && hi <= r.Head() + 1
    ensures NoneBetween(r, q, lo, hi) ==> NoneBetween(r', q, lo, hi)
  {
    assert forall s: nat :: s <= r.Head() ==> r'.Matching(q, s) == r.Matching(q, s);
  }

  lemma {:induction false} ChainStable(r: Ring, r': Ring, q: Query, c: nat, items: seq<Item>)
    requires Evolves(r, r') && Chain(r, q, c, items)
    requires forall i :: 0 <= i < |items| ==> items[i].seqNo <= r.Head()
    ensures Chain(r', q, c, items)
    decreases |items|
  {
    if items != [] {
      forall i | 0 <= i < |items[1..]| ensures items[1..][i].seqNo <= r.Head() {
        assert items[1..][i] == items[i + 1];
      }
      NoneBetweenStable(r, r', q, c, if items[0].EventItem? then items[0].seqNo else 0);
      ChainStable(r, r', q, Max(c, items[0].seqNo), items[1..]);
    }
  }

  /** A task that has got past everything queued leaves nothing out. */
  lemma {:induction false} ChainBehind(r: Ring, q: Query, c: nat, items: seq<Item>)
    requires forall i :: 0 <= i < |items| ==> items[i].seqNo <= c
    ensures Chain(r, q, c, items) && Reach(c, items) == c
    decreases |items|
  {
    if items != [] {
      forall i | 0 <= i < |items[1..]| ensures items[1..][i].seqNo <= c {
        assert items[1..][i] == items[i + 1];
      }
      ChainBehind(r, q, c, items[1..]);
    }
  }

  ghost predicate ItemOk(r: Ring, epoch: nat, name: string, x: Item) {
    && x.seqNo <= r.Head()
    && (x.EventItem? ==> r.Has(x.seqNo) && x.occ == OccurrenceOf(r, name, x.seqNo).(cursor := Some(CursorStr(epoch, x.seqNo))))
    && (x.GapItem? ==> x.cursor == CursorStr(epoch, x.seqNo))
  }

  /** What the delivery task still has to work through. */
  function Pending(inHand: Option<Item>, queue: seq<Item>): seq<Item> {
    (if inHand.Some? then [inHand.value] else []) + queue
  }

  /** Every matching event in `(lo, hi]` was acked or abandoned, or lies under a gap envelope that was. */
  ghost predicate Safe(r: Ring, q: Query, acked: set<nat>, gapped: set<nat>, lo: nat, hi: nat) {
    forall s :: lo < s <= hi && r.Matching(q, s) ==> s in acked || s in gapped
  }

  /** Failed POSTs since the last success or reset. */
  function FailStreak(posts: seq<Post>): nat {
    if posts == [] then 0
    else match posts[|posts| - 1]
         case Post(_, ok, _, _) => if ok then 0 else FailStreak(posts[..|posts| - 1]) + 1
         case Began(_) => FailStreak(posts[..|posts| - 1])
         case _ => 0
  }

  /** Where the latest record's promise starts: the position it was created with, or that its first task chose. */
  function Seed(posts: seq<Post>): Option<nat> {
    if posts == [] then None
    else match posts[|posts| - 1]
         case Recorded(start, _) => start
         case Began(start) => Some(start)
         case _ => Seed(posts[..|posts| - 1])
  }

  /** How much of the history belongs to earlier records, all their delivery tasks being over. */
  function Era(posts: seq<Post>): (n: nat)
    ensures n <= |posts|
  {
    if posts == [] then 0
    else
      var x := posts[|posts| - 1];
      if x.Recorded? && !x.over then |posts| else Era(posts[..|posts| - 1])
  }

  /** No POST starts while suspended, and no streak of failures exceeds the suspension threshold. */
  ghost predicate Paced(suspendAfter: nat, posts: seq<Post>) {
    && (forall i :: 0 <= i < |posts| && posts[i].Post? ==> !posts[i].suspended)
    && (suspendAfter > 0 ==> forall k :: 0 <= k <= |posts| ==> FailStreak(posts[..k]) <= suspendAfter)
  }

  ghost predicate PhaseOk(r: Ring, epoch: nat, name: string, w: World) {
    match w.phase
    case Idle => w.fanned == w.rx
    case Lagged => true
    case _ =>
      var x := w.phase.item;
      && ItemOk(r, epoch, name, x)
      && (x.EventItem? ==> x.seqNo == w.rx == w.fanned + 1)
      && (x.GapItem? ==> w.rx <= x.seqNo)
      && (!w.phase.Holding? ==> w.cacheVerified)
      && (w.phase.Sending? || w.phase.Reopening? || w.phase.Resending? ==> w.owed ==> x.GapItem?)
  }

  ghost predicate FanOk(r: Ring, epoch: nat, name: string, w: World) {
    w.fanned <= w.rx <= r.Head() && PhaseOk(r, epoch, name, w)
  }

  ghost predicate StoreOk(r: Ring, epoch: nat, q: Query, suspendAfter: nat, w: World) {
    && Paced(suspendAfter, w.posts)
    && (w.alive ==> w.cacheVerified)
    && (w.slot.Some? ==>
          var sub := w.slot.value;
          && sub.verified == w.cacheVerified
          && sub.streak == FailStreak(w.posts)
          && (suspendAfter > 0 && sub.active ==> sub.streak < suspendAfter)
          && (sub.cursor.Some? ==>
                && sub.cursor.value == CursorStr(epoch, w.mark) && w.mark <= r.Head()
                && Seed(w.posts) == Some(w.seed) && Safe(r, q, w.acked, w.gapped, w.seed, w.mark)))
  }

  ghost predicate TaskOk(r: Ring, epoch: nat, name: string, q: Query, w: World) {
    && |w.queue| <= DELIVERY_QUEUE_CAPACITY
    && (w.inHand.Some? ==> w.queueing)
    && (w.queueing ==> w.started)
    && (w.started ==> w.alive && w.at <= r.Head() && Safe(r, q, w.acked, w.gapped, w.seed, w.at)
                      && (w.slot.Some? ==> Seed(w.posts) == Some(w.seed))
                      && forall s :: s in w.acked || s in w.gapped ==> s <= w.at)
    && (forall i :: 0 <= i < |Pending(w.inHand, w.queue)| ==> ItemOk(r, epoch, name, Pending(w.inHand, w.queue)[i]))
    && (w.queueing && w.slot.Some? ==> !w.missed)
    && (w.queueing && !w.missed ==> Covers(r, q, Max(w.at, w.seed), Pending(w.inHand, w.queue), w.owed, w.fanned))
    && (w.handling ==> w.queueing && w.inHand.Some? && Follows(r, q, Max(w.at, w.seed), w.inHand.value))
  }

  /** The invariant of the whole pipeline. */
  ghost predicate Good(r: Ring, epoch: nat, name: string, q: Query, suspendAfter: nat, w: World) {
    && StoreOk(r, epoch, q, suspendAfter, w)
    && FanOk(r, epoch, name, w)
    && TaskOk(r, epoch, name, q, w)
  }

  lemma ItemStable(r: Ring, r': Ring, epoch: nat, name: string, x: Item)
    requires Evolves(r, r') && ItemOk(r, epoch, name, x)
    ensures ItemOk(r', epoch, name, x)
  {
  }

  lemma SafeStable(r: Ring, r': Ring, q: Query, acked: set<nat>, gapped: set<nat>, lo: nat, hi: nat)
    requires Evolves(r, r') && hi <= r.Head() && Safe(r, q, acked, gapped, lo, hi)
    ensures Safe(r', q, acked, gapped, lo, hi)
  {
  }

  lemma CoversStable(r: Ring, r': Ring, epoch: nat, name: string, q: Query, w: World)
    requires Evolves(r, r') && TaskOk(r, epoch, name, q, w) && w.fanned <= r.Head()
    ensures w.queueing && !w.missed ==>
      Covers(r', q, Max(w.at, w.seed), Pending(w.inHand, w.queue), w.owed, w.fanned)
    ensures w.handling ==> Follows(r', q, Max(w.at, w.seed), w.inHand.value)
  {
    var items := Pending(w.inHand, w.queue);
    forall i | 0 <= i < |items| ensures items[i].seqNo <= r.Head() {
      assert ItemOk(r, epoch, name, items[i]);
    }
    if w.queueing && !w.missed {
      ChainStable(r, r', q, Max(w.at, w.seed), items);
      NoneBetweenStable(r, r', q, Reach(Max(w.at, w.seed), items), w.fanned + 1);
    }
    if w.handling {
      assert items[0] == w.inHand.value;
      NoneBetweenStable(r, r', q, Max(w.at, w.seed), w.inHand.value.seqNo);
    }
  }

  lemma GoodStable(r: Ring, r': Ring, epoch: nat, name: string, q: Query, suspendAfter: nat, w: World)
    requires Evolves(r, r') && Good(r, epoch, name, q, suspendAfter, w)
    ensures Good(r', epoch, name, q, suspendAfter, w)
  {
    CoversStable(r, r', epoch, name, q, w);
    hide Covers, Follows;
    if w.slot.Some? && w.slot.value.cursor.Some? {
      SafeStable(r, r', q, w.acked, w.gapped, w.seed, w.mark);
    }
    if w.started {
      SafeStable(r, r', q, w.acked, w.gapped, w.seed, w.at);
    }
    if !w.phase.Idle? && !w.phase.Lagged? {
      ItemStable(r, r', epoch, name, w.phase.item);
    }
    forall i | 0 <= i < |Pending(w.inHand, w.queue)| ensures ItemOk(r', epoch, name, Pending(w.inHand, w.queue)[i]) {
      ItemStable(r, r', epoch, name, Pending(w.inHand, w.queue)[i]);
    }
  }

  /** The item the fan-out makes of a lag: a gap that carries the current head. */
  function HeadGap(cursor: string): Item {
    GapItem(match ParseSeq(cursor) case Some(s) => s case None => U64_LIMIT - 1, cursor)
  }

  // ---- Steps of the store's other users, and of the sweep ----

  function Refreshed(w: World): World
    requires w.slot.Some?
  {
    w.(slot := Some(w.slot.value.(active := true, streak := 0, verified := w.cacheVerified)), posts := w.posts + [Reset])
  }

  function Verified(w: World): World {
    w.(cacheVerified := true, slot := if w.slot.Some? then Some(w.slot.value.(verified := true)) else None)
  }

  /** A fresh create adopts the supplied cursor; it also replaces a lapsed record in place. The books of earlier
      records are closed. */
  function Created(w: World, cursor: Option<string>, pos: nat): World {
    w.(slot := Some(Sub(cursor, true, w.cacheVerified, 0)),
       posts := w.posts + [Recorded(if cursor.Some? then Some(pos) else None, false)],
       seed := pos, mark := pos, acked := {}, gapped := {})
  }

  /** The same while a delivery task of an earlier record still runs: that task goes on with the new record. */
  function CreatedOver(w: World, cursor: string, pos: nat): World {
    w.(slot := Some(Sub(Some(cursor), true, w.cacheVerified, 0)), posts := w.posts + [Recorded(Some(pos), true)],
       seed := pos, mark := pos, missed := false)
  }

  function Removed(w: World): World {
    w.(slot := None)
  }

  /** A new delivery task, with an empty queue. */
  function Spawned(w: World): World {
    w.(alive := true, closing := false, queue := [], started := false, queueing := false, inHand := None, handling := false, missed := false)
  }

  function Exited(w: World): World {
    w.(alive := false, closing := false, queue := [], started := false, queueing := false, inHand := None, handling := false, missed := false)
  }

  lemma PostsMore(posts: seq<Post>, x: Post)
    ensures FailStreak(posts + [x]) ==
      if x.Began? then FailStreak(posts) else if x.Post? && !x.ok then FailStreak(posts) + 1 else 0
    ensures Seed(posts + [x]) == if x.Recorded? then x.start else if x.Began? then Some(x.from) else Seed(posts)
    ensures Era(posts + [x]) == if x.Recorded? && !x.over then |posts| + 1 else Era(posts)
  {
    assert (posts + [x])[..|posts|] == posts;
  }

  lemma PacedMore(suspendAfter: nat, posts: seq<Post>, x: Post)
    requires Paced(suspendAfter, posts)
    requires x.Post? ==> !x.suspended && (suspendAfter > 0 && !x.ok ==> FailStreak(posts) < suspendAfter)
    ensures Paced(suspendAfter, posts + [x])
    ensures FailStreak(posts + [x]) ==
      if x.Began? then FailStreak(posts) else if x.Post? && !x.ok then FailStreak(posts) + 1 else 0
    ensures Seed(posts + [x]) == if x.Recorded? then x.start else if x.Began? then Some(x.from) else Seed(posts)
  {
    PostsMore(posts, x);
    hide FailStreak, Seed;
    var all := posts + [x];
    assert all[..|posts|] == posts && posts[..|posts|] == posts;
    forall k | 0 <= k <= |all| && suspendAfter > 0 ensures FailStreak(all[..k]) <= suspendAfter {
      if k <= |posts| {
        assert all[..k] == posts[..k];
      } else {
        assert all[..k] == all;
      }
    }
  }

  lemma GoodAfterRefresh(r: Ring, epoch: nat, name: string, q: Query, suspendAfter: nat, w: World)
    requires Good(r, epoch, name, q, suspendAfter, w) && w.slot.Some?
    ensures Good(r, epoch, name, q, suspendAfter, Refreshed(w))
  {
    PacedMore(suspendAfter, w.posts, Reset);
  }

  lemma GoodAfterVerify(r: Ring, epoch: nat, name: string, q: Query, suspendAfter: nat, w: World)
    requires Good(r, epoch, name, q, suspendAfter, w)
    ensures Good(r, epoch, name, q, suspendAfter, Verified(w))
  {
  }

  lemma GoodAfterRemove(r: Ring, epoch: nat, name: string, q: Query, suspendAfter: nat, w: World)
    requires Good(r, epoch, name, q, suspendAfter, w)
    ensures Good(r, epoch, name, q, suspendAfter, Removed(w))
    ensures Good(r, epoch, name, q, suspendAfter, Removed(w).(closing := true))
  {
  }

  lemma GoodAfterCreate(r: Ring, epoch: nat, name: string, q: Query, suspendAfter: nat, w: World, cursor: Option<string>, pos: nat)
    requires Good(r, epoch, name, q, suspendAfter, w) && !w.alive
    requires cursor.Some? ==> cursor.value == CursorStr(epoch, pos) && pos <= r.Head()
    ensures Good(r, epoch, name, q, suspendAfter, Created(w, cursor, pos))
  {
    PacedMore(suspendAfter, w.posts, Recorded(if cursor.Some? then Some(pos) else None, false));
    hide Paced, FailStreak, ItemOk, Covers, CursorStr;
  }

  /** A record created over a running task keeps the invariant exactly when what the task is already past, from the new
      start on, was settled, and what the task will still be given leaves nothing after the new start out. */
  lemma CreateOverIff(r: Ring, epoch: nat, name: string, q: Query, suspendAfter: nat, w: World, pos: nat)
    requires Good(r, epoch, name, q, suspendAfter, w) && w.alive && pos <= r.Head()
    ensures Good(r, epoch, name, q, suspendAfter, CreatedOver(w, CursorStr(epoch, pos), pos)) <==>
      && (w.started ==> Safe(r, q, w.acked, w.gapped, pos, w.at))
      && (w.queueing ==> Covers(r, q, Max(w.at, pos), Pending(w.inHand, w.queue), w.owed, w.fanned))
  {
    PacedMore(suspendAfter, w.posts, Recorded(Some(pos), true));
    if w.handling {
      assert Pending(w.inHand, w.queue)[0] == w.inHand.value;
      FirstFollows(r, q, Max(w.at, pos), Pending(w.inHand, w.queue), w.owed, w.fanned);
    }
    hide Paced, FailStreak, ItemOk, Covers, Follows, CursorStr;
  }

  lemma FirstFollows(r: Ring, q: Query, c: nat, items: seq<Item>, owed: bool, fanned: nat)
    requires items != []
    ensures Covers(r, q, c, items, owed, fanned) ==> Follows(r, q, c, items[0])
  {
  }

  /** What a caller can check: the task has not begun; or the record starts at the head; or it does not start before the
      old one and, if the task is already draining its queue, no item was passed by for want of a record. */
  predicate Harmless(w: World, pos: nat, head: nat) {
    !w.started || pos == head || (w.seed <= pos && (w.queueing ==> !w.missed))
  }

  lemma GoodAfterCreateOver(r: Ring, epoch: nat, name: string, q: Query, suspendAfter: nat, w: World, pos: nat)
    requires Good(r, epoch, name, q, suspendAfter, w) && w.alive && pos <= r.Head()
    requires Harmless(w, pos, r.Head())
    ensures Good(r, epoch, name, q, suspendAfter, CreatedOver(w, CursorStr(epoch, pos), pos))
  {
    var items := Pending(w.inHand, w.queue);
    CreateOverIff(r, epoch, name, q, suspendAfter, w, pos);
    if pos == r.Head() {
      forall i | 0 <= i < |items| ensures items[i].seqNo <= Max(w.at, pos) {
        assert ItemOk(r, epoch, name, items[i]);
      }
      ChainBehind(r, q, Max(w.at, pos), items);
    } else if w.queueing {
      CoversHigher(r, q, Max(w.at, w.seed), Max(w.at, pos), items, w.owed, w.fanned);
    }
    hide Chain, Reach, Paced, ItemOk, CursorStr, Pending;
  }

  /** In particular when the record was there all along, lapsed and replaced in place. */
  lemma GoodAfterReplace(r: Ring, epoch: nat, name: string, q: Query, suspendAfter: nat, w: World, pos: nat)
    requires Good(r, epoch, name, q, suspendAfter, w) && w.alive && w.slot.Some? && w.seed <= pos <= r.Head()
    ensures Good(r, epoch, name, q, suspendAfter, CreatedOver(w, CursorStr(epoch, pos), pos))
  {
    GoodAfterCreateOver(r, epoch, name, q, suspendAfter, w, pos);
  }

  lemma GoodAfterSpawn(r: Ring, epoch: nat, name: string, q: Query, suspendAfter: nat, w: World)
    requires Good(r, epoch, name, q, suspendAfter, w) && !w.alive && w.cacheVerified
    ensures Good(r, epoch, name, q, suspendAfter, Spawned(w))
  {
  }

  lemma GoodAfterExit(r: Ring, epoch: nat, name: string, q: Query, suspendAfter: nat, w: World)
    requires Good(r, epoch, name, q, suspendAfter, w)
    ensures Good(r, epoch, name, q, suspendAfter, Exited(w))
  {
  }

  // ---- Steps of the fan-out ----

  function FanReceived(w: World, occ: EventOccurrence): World {
    w.(rx := w.rx + 1, phase := Holding(EventItem(w.rx + 1, occ)))
  }

  /** Lists the subscription: an unverified or absent one is passed by (an absent one misses the item), a suspended one is
      owed a gap. */
  function FanListed(w: World): World
    requires w.phase.Holding?
  {
    var passed := w.slot.None? || !w.slot.value.verified;
    var suspended := !passed && !w.slot.value.active;
    w.(phase := if passed || suspended then Idle else Ready(w.phase.item),
       fanned := if passed || suspended then w.rx else w.fanned,
       owed := w.owed || suspended, missed := w.missed || w.slot.None?)
  }

  /** With a delivery task at hand, an owed gap takes the place of the item. */
  function FanEnsured(w: World): World
    requires w.phase.Ready?
  {
    var w1 := if w.alive then w else Spawned(w);
    if w.owed then w1.(phase := Ensured(w.phase.item)) else w1.(phase := Sending(w.phase.item))
  }

  /** A send that went through: into the queue, and the debt is paid if it was the owed gap. */
  function FanSent(w: World, x: Item): World {
    w.(queue := w.queue + [x], phase := Idle, fanned := w.rx, owed := false)
  }

  /** A send that did not go through leaves a gap owed. */
  function FanFailed(w: World): World {
    w.(phase := Idle, fanned := w.rx, owed := true)
  }

  lemma GoodAfterReceive(r: Ring, epoch: nat, name: string, q: Query, suspendAfter: nat, w: World, occ: EventOccurrence)
    requires Good(r, epoch, name, q, suspendAfter, w) && w.phase.Idle? && w.rx < r.Head()
    requires occ == OccurrenceOf(r, name, w.rx + 1).(cursor := Some(CursorStr(epoch, w.rx + 1)))
    ensures Good(r, epoch, name, q, suspendAfter, FanReceived(w, occ))
  {
  }

  lemma GoodAfterLag(r: Ring, epoch: nat, name: string, q: Query, suspendAfter: nat, w: World, next: nat)
    requires Good(r, epoch, name, q, suspendAfter, w) && w.phase.Idle? && w.rx < next <= r.Head()
    ensures Good(r, epoch, name, q, suspendAfter, w.(rx := next, phase := Lagged))
  {
  }

  lemma GoodAfterLagCursor(r: Ring, epoch: nat, name: string, q: Query, suspendAfter: nat, w: World)
    requires r.Valid() && epoch < U64_LIMIT
    requires Good(r, epoch, name, q, suspendAfter, w) && w.phase.Lagged?
    ensures Good(r, epoch, name, q, suspendAfter, w.(phase := Holding(HeadGap(CursorStr(epoch, r.Head())))))
  {
    CursorRoundTrip(epoch, r.Head());
  }

  lemma GoodAfterList(r: Ring, epoch: nat, name: string, q: Query, suspendAfter: nat, w: World)
    requires Good(r, epoch, name, q, suspendAfter, w) && w.phase.Holding?
    ensures Good(r, epoch, name, q, suspendAfter, FanListed(w))
  {
    hide FanOk, Chain, Reach, Paced, FailStreak, Safe, ItemOk, Pending, CursorStr;
    FanAfterList(r, epoch, name, q, suspendAfter, w);
  }

  lemma FanAfterList(r: Ring, epoch: nat, name: string, q: Query, suspendAfter: nat, w: World)
    requires FanOk(r, epoch, name, w) && StoreOk(r, epoch, q, suspendAfter, w) && w.phase.Holding?
    ensures FanOk(r, epoch, name, FanListed(w)) && StoreOk(r, epoch, q, suspendAfter, FanListed(w))
  {
    StoreIgnoresFan(r, epoch, q, suspendAfter, w, FanListed(w));
    VerifiedIsCached(r, epoch, q, suspendAfter, w);
    hide StoreOk, ItemOk;
  }

  lemma VerifiedIsCached(r: Ring, epoch: nat, q: Query, suspendAfter: nat, w: World)
    requires StoreOk(r, epoch, q, suspendAfter, w)
    ensures w.slot.Some? ==> w.slot.value.verified == w.cacheVerified
    ensures w.alive ==> w.cacheVerified
  {
  }

  lemma GoodAfterEnsure(r: Ring, epoch: nat, name: string, q: Query, suspendAfter: nat, w: World)
    requires Good(r, epoch, name, q, suspendAfter, w) && w.phase.Ready?
    ensures Good(r, epoch, name, q, suspendAfter, FanEnsured(w))
  {
  }

  lemma GoodAfterOwedCursor(r: Ring, epoch: nat, name: string, q: Query, suspendAfter: nat, w: World)
    requires r.Valid() && epoch < U64_LIMIT
    requires Good(r, epoch, name, q, suspendAfter, w) && w.phase.Ensured?
    ensures Good(r, epoch, name, q, suspendAfter, w.(phase := Sending(HeadGap(CursorStr(epoch, r.Head())))))
  {
    CursorRoundTrip(epoch, r.Head());
  }

  lemma GoodAfterSend(r: Ring, epoch: nat, name: string, q: Query, suspendAfter: nat, w: World)
    requires Good(r, epoch, name, q, suspendAfter, w) && (w.phase.Sending? || w.phase.Resending?)
    requires w.alive && |w.queue| < DELIVERY_QUEUE_CAPACITY
    ensures Good(r, epoch, name, q, suspendAfter, FanSent(w, w.phase.item))
  {
    var x, items := w.phase.item, Pending(w.inHand, w.queue);
    assert Pending(w.inHand, w.queue + [x]) == items + [x];
    if w.queueing && !w.missed {
      CoversMore(r, epoch, name, q, w, Max(w.at, w.seed), items);
    }
    hide Covers, StoreOk, Follows, Safe, Seed, ItemOk, CursorStr, Pending;
    StoreIgnoresFan(r, epoch, q, suspendAfter, w, FanSent(w, x));
  }

  lemma CoversMore(r: Ring, epoch: nat, name: string, q: Query, w: World, c: nat, items: seq<Item>)
    requires FanOk(r, epoch, name, w) && (w.phase.Sending? || w.phase.Resending?)
    requires Covers(r, q, c, items, w.owed, w.fanned)
    ensures Covers(r, q, c, items + [w.phase.item], false, w.rx)
  {
    hide ItemOk, Chain, Reach;
    ChainAppend(r, q, c, items, w.phase.item);
  }

  lemma StoreIgnoresFan(r: Ring, epoch: nat, q: Query, suspendAfter: nat, w: World, w': World)
    requires StoreOk(r, epoch, q, suspendAfter, w)
    requires w'.slot == w.slot && w'.cacheVerified == w.cacheVerified && w'.alive == w.alive && w'.posts == w.posts
    requires w'.seed == w.seed && w'.mark == w.mark && w'.acked == w.acked && w'.gapped == w.gapped
    ensures StoreOk(r, epoch, q, suspendAfter, w')
  {
    hide Paced, FailStreak, Seed, Safe, CursorStr;
  }

  lemma GoodAfterFail(r: Ring, epoch: nat, name: string, q: Query, suspendAfter: nat, w: World)
    requires Good(r, epoch, name, q, suspendAfter, w) && (w.phase.Sending? || w.phase.Resending?)
    ensures Good(r, epoch, name, q, suspendAfter, FanFailed(w))
  {
  }

  lemma GoodAfterClosed(r: Ring, epoch: nat, name: string, q: Query, suspendAfter: nat, w: World)
    requires Good(r, epoch, name, q, suspendAfter, w)
    ensures w.phase.Sending? ==> Good(r, epoch, name, q, suspendAfter, w.(phase := Reopening(w.phase.item)))
    ensures w.phase.Reopening? ==>
              Good(r, epoch, name, q, suspendAfter, (if w.alive then w else Spawned(w)).(phase := Resending(w.phase.item)))
  {
  }

  /** One locked section of the fan-out: `next` is where a lagging receiver is moved to. */
  ghost predicate FanStepped(r: Ring, epoch: nat, name: string, next: nat, w: World, w': World) {
    match w.phase
    case Idle =>
      if w.rx >= r.Head() then w' == w
      else if w.rx < next <= r.Head() then w' == w.(rx := next, phase := Lagged)
      else w' == FanReceived(w, OccurrenceOf(r, name, w.rx + 1).(cursor := Some(CursorStr(epoch, w.rx + 1))))
    case Lagged => w' == w.(phase := Holding(HeadGap(CursorStr(epoch, r.Head()))))
    case Holding(_) => w' == FanListed(w)
    case Ready(_) => w' == if w.alive && w.closing then w else FanEnsured(w)
    case Ensured(_) => w' == w.(phase := Sending(HeadGap(CursorStr(epoch, r.Head()))))
    case Sending(x) => if w.alive then Offered(w, w') else w' == w.(phase := Reopening(x))
    case Reopening(x) => w' == if w.alive && w.closing then w else (if w.alive then w else Spawned(w)).(phase := Resending(x))
    case Resending(_) => if w.alive then Offered(w, w') else w' == FanFailed(w)
  }

  /** A send to a living task's queue. */
  predicate Offered(w: World, w': World)
    requires w.phase.Sending? || w.phase.Resending?
  {
    w' == if |w.queue| < DELIVERY_QUEUE_CAPACITY then FanSent(w, w.phase.item) else FanFailed(w)
  }

  /** A record that is delivered to: present, verified and active. */
  predicate Receives(w: World) {
    w.slot.Some? && w.slot.value.verified && w.slot.value.active
  }

  /** A living delivery task with room in its queue, which holds at most 1024 items. */
  predicate HasRoom(w: World) {
    w.alive && !w.closing && |w.queue| < 1024
  }

  /** An idle fan-out that owes nothing queues exactly the next event: after it received the event, listed the
      subscription, made sure of the task and sent. A task that is missing is started for it. */
  lemma NextEventQueued(r: Ring, epoch: nat, name: string, w0: World, w1: World, w2: World, w3: World, w4: World)
    requires w0.phase.Idle? && !w0.owed && w0.rx < r.Head() && Receives(w0) && (w0.alive ==> HasRoom(w0))
    requires FanStepped(r, epoch, name, 0, w0, w1) && FanStepped(r, epoch, name, 0, w1, w2)
    requires FanStepped(r, epoch, name, 0, w2, w3) && FanStepped(r, epoch, name, 0, w3, w4)
    ensures var s := w0.rx + 1; var e := r.At(s);
      && w4.queue == (if w0.alive then w0.queue else []) +
           [EventItem(s, EventOccurrence(e.eventId, name, e.timestamp, e.data, Some(CursorStr(epoch, s))))]
      && w4.rx == w4.fanned == s && w4.alive && w4.phase.Idle? && !w4.owed && w4.slot == w0.slot
      && (w0.alive ==> w4.at == w0.at && w4.started == w0.started && w4.inHand == w0.inHand)
  {
    hide CursorStr;
  }

  /** When a gap is owed, that gap is queued in place of the event, with the head it found, and the debt is paid. */
  lemma OwedGapQueued(r: Ring, epoch: nat, name: string, w0: World, w1: World, w2: World, w3: World, w4: World, w5: World)
    requires r.Valid() && epoch < U64_LIMIT
    requires w0.phase.Idle? && w0.owed && w0.rx < r.Head() && Receives(w0) && HasRoom(w0)
    requires FanStepped(r, epoch, name, 0, w0, w1) && FanStepped(r, epoch, name, 0, w1, w2)
    requires FanStepped(r, epoch, name, 0, w2, w3) && FanStepped(r, epoch, name, 0, w3, w4)
    requires FanStepped(r, epoch, name, 0, w4, w5)
    ensures w5.queue == w0.queue + [GapItem(r.Head(), CursorStr(epoch, r.Head()))]
    ensures w5.phase.Idle? && !w5.owed && w5.rx == w5.fanned == w0.rx + 1 && w5.slot == w0.slot
  {
    hide CursorStr;
    CursorRoundTrip(epoch, r.Head());
  }

  /** A receiver that lagged queues a gap with the head in place of all it missed. */
  lemma LagQueuesGap(r: Ring, epoch: nat, name: string, next: nat, w0: World, w1: World, w2: World, w3: World, w4: World, w5: World)
    requires r.Valid() && epoch < U64_LIMIT
    requires w0.phase.Idle? && !w0.owed && w0.rx < next <= r.Head() && Receives(w0) && HasRoom(w0)
    requires FanStepped(r, epoch, name, next, w0, w1) && FanStepped(r, epoch, name, 0, w1, w2)
    requires FanStepped(r, epoch, name, 0, w2, w3) && FanStepped(r, epoch, name, 0, w3, w4)
    requires FanStepped(r, epoch, name, 0, w4, w5)
    ensures w5.queue == w0.queue + [GapItem(r.Head(), CursorStr(epoch, r.Head()))]
    ensures w5.phase.Idle? && !w5.owed && w5.rx == w5.fanned == next && w5.slot == w0.slot
  {
    hide CursorStr;
    CursorRoundTrip(epoch, r.Head());
  }

  /** What is not queued: a record that is absent or unverified is passed by and owed nothing new; a suspended one is owed
      a gap, and so is one whose queue is full. */
  lemma NotQueued(r: Ring, epoch: nat, name: string, w: World, w': World)
    requires FanStepped(r, epoch, name, 0, w, w')
    ensures w.phase.Holding? && (w.slot.None? || !w.slot.value.verified) ==>
      w' == w.(phase := Idle, fanned := w.rx, missed := w.missed || w.slot.None?)
    ensures w.phase.Holding? && w.slot.Some? && w.slot.value.verified && !w.slot.value.active ==>
      w' == w.(phase := Idle, fanned := w.rx, owed := true)
    ensures w.phase.Sending? && w.alive && |w.queue| >= 1024 ==> w' == w.(phase := Idle, fanned := w.rx, owed := true)
  {
    hide CursorStr;
  }

  /** A send that finds the task gone starts a new one, and its queue gets the item. */
  lemma ReopenedQueued(r: Ring, epoch: nat, name: string, w0: World, w1: World, w2: World, w3: World)
    requires w0.phase.Sending? && !w0.alive
    requires FanStepped(r, epoch, name, 0, w0, w1) && FanStepped(r, epoch, name, 0, w1, w2) && FanStepped(r, epoch, name, 0, w2, w3)
    ensures w3.alive && w3.queue == [w0.phase.item] && w3.phase.Idle? && !w3.owed && w3.slot == w0.slot && w3.rx == w0.rx
  {
    hide CursorStr;
  }

  // ---- Steps of the delivery task ----

  function UpTo(s: set<nat>, pos: nat): set<nat> {
    set x | x in s && x <= pos
  }

  /** The task reads its start position from the record; without one it starts from the head, and that is where the
      promise starts. What an earlier task settled beyond the start is settled again. */
  function Started(w: World, pos: nat): World
    requires w.slot.Some?
  {
    var w1 := w.(started := true, at := pos, acked := UpTo(w.acked, pos), gapped := UpTo(w.gapped, pos));
    if w.slot.value.cursor.Some? then w1 else w1.(seed := pos, posts := w.posts + [Began(pos)])
  }

  /** A message is acked or abandoned: an event that leaves nothing unsettled up to `pos`. */
  function SettledEvent(w: World, s: nat, pos: nat): World {
    w.(acked := w.acked + {s}, at := pos)
  }

  /** A gap envelope is acked or abandoned: it covers everything since the task's position. */
  ghost function SettledGap(r: Ring, q: Query, w: World, pos: nat): World {
    w.(gapped := w.gapped + (set s | w.at < s <= pos && r.Matching(q, s)), at := pos)
  }

  function MarkedAt(w: World, cursor: string): World {
    if w.slot.Some? then w.(slot := Some(w.slot.value.(cursor := Some(cursor))), mark := w.at) else w
  }

  function Popped(w: World): World
    requires w.queue != []
  {
    w.(inHand := Some(w.queue[0]), handling := false, queue := w.queue[1..])
  }

  function DoneWith(w: World): World
    requires w.inHand.Some?
  {
    w.(inHand := None, handling := false)
  }

  /** The store's bookkeeping after a POST. */
  function PostMarked(w: World, x: Post, suspendAfter: nat): World
    requires x.Post?
  {
    w.(posts := w.posts + [x], slot := if w.slot.Some? then Some(SubAfter(w.slot.value, x.ok, suspendAfter)) else None)
  }

  function SubAfter(sub: Sub, ok: bool, suspendAfter: nat): Sub {
    if ok then sub.(streak := 0)
    else sub.(streak := sub.streak + 1, active := sub.active && !(suspendAfter > 0 && sub.streak + 1 >= suspendAfter))
  }

  lemma GoodAfterStart(r: Ring, epoch: nat, name: string, q: Query, suspendAfter: nat, w: World, pos: nat)
    requires Good(r, epoch, name, q, suspendAfter, w) && w.alive && !w.started && w.slot.Some?
    requires if w.slot.value.cursor.Some? then pos == w.mark else pos <= r.Head()
    ensures Good(r, epoch, name, q, suspendAfter, Started(w, pos))
  {
    hide StoreOk, TaskOk, FanOk;
    StoreAfterStart(r, epoch, q, suspendAfter, w, pos);
    TaskAfterStart(r, epoch, name, q, suspendAfter, w, pos);
    FanIgnores(r, epoch, name, w, Started(w, pos));
  }

  lemma StoreAfterStart(r: Ring, epoch: nat, q: Query, suspendAfter: nat, w: World, pos: nat)
    requires StoreOk(r, epoch, q, suspendAfter, w) && w.slot.Some?
    requires w.slot.value.cursor.Some? ==> pos == w.mark
    ensures StoreOk(r, epoch, q, suspendAfter, Started(w, pos))
  {
    hide Paced, FailStreak, Seed, CursorStr, Safe, UpTo;
    if w.slot.value.cursor.Some? {
      SafeUpTo(r, q, w.acked, w.gapped, w.seed, w.mark);
    } else {
      PacedMore(suspendAfter, w.posts, Began(pos));
    }
  }

  lemma SafeUpTo(r: Ring, q: Query, acked: set<nat>, gapped: set<nat>, lo: nat, hi: nat)
    requires Safe(r, q, acked, gapped, lo, hi)
    ensures Safe(r, q, UpTo(acked, hi), UpTo(gapped, hi), lo, hi)
  {
  }

  lemma TaskAfterStart(r: Ring, epoch: nat, name: string, q: Query, suspendAfter: nat, w: World, pos: nat)
    requires StoreOk(r, epoch, q, suspendAfter, w) && TaskOk(r, epoch, name, q, w) && w.alive && !w.started && w.slot.Some?
    requires if w.slot.value.cursor.Some? then pos == w.mark else pos <= r.Head()
    ensures TaskOk(r, epoch, name, q, Started(w, pos))
  {
    hide Paced, FailStreak, Seed, Era, ItemOk, CursorStr, Pending, Covers, Follows;
    PostsMore(w.posts, Began(pos));
  }

  /** The fan-out does not look at the task's progress. */
  lemma FanIgnores(r: Ring, epoch: nat, name: string, w: World, w': World)
    requires FanOk(r, epoch, name, w)
    requires w'.rx == w.rx && w'.phase == w.phase && w'.owed == w.owed && w'.fanned == w.fanned && w'.cacheVerified == w.cacheVerified
    ensures FanOk(r, epoch, name, w')
  {
    hide ItemOk;
  }

  /** The task's position moves on over what is settled; the queue then covers no less. */
  lemma TaskMovesOn(r: Ring, epoch: nat, name: string, q: Query, w: World, pos: nat, acked: set<nat>, gapped: set<nat>)
    requires TaskOk(r, epoch, name, q, w) && w.started && w.at <= pos <= r.Head() && w.acked <= acked && w.gapped <= gapped
    requires forall t :: Max(w.at, w.seed) < t <= pos && r.Matching(q, t) ==> t in acked || t in gapped
    requires forall s :: s in acked || s in gapped ==> s <= pos
    ensures TaskOk(r, epoch, name, q, w.(at := pos, acked := acked, gapped := gapped))
  {
    if w.queueing && !w.missed {
      CoversHigher(r, q, Max(w.at, w.seed), Max(pos, w.seed), Pending(w.inHand, w.queue), w.owed, w.fanned);
    }
    hide Covers, Seed, ItemOk, Pending;
  }

  lemma StoreKeepsUp(r: Ring, epoch: nat, q: Query, suspendAfter: nat, w: World, acked: set<nat>, gapped: set<nat>, pos: nat)
    requires StoreOk(r, epoch, q, suspendAfter, w) && w.acked <= acked && w.gapped <= gapped
    ensures StoreOk(r, epoch, q, suspendAfter, w.(at := pos, acked := acked, gapped := gapped))
  {
    hide Paced, FailStreak, Seed, CursorStr;
  }

  lemma GoodAfterSettling(r: Ring, epoch: nat, name: string, q: Query, suspendAfter: nat, w: World, pos: nat,
                          acked: set<nat>, gapped: set<nat>)
    requires Good(r, epoch, name, q, suspendAfter, w) && w.started && w.at <= pos <= r.Head()
    requires w.acked <= acked && w.gapped <= gapped
    requires forall t :: Max(w.at, w.seed) < t <= pos && r.Matching(q, t) ==> t in acked || t in gapped
    requires forall s :: s in acked || s in gapped ==> s <= pos
    ensures Good(r, epoch, name, q, suspendAfter, w.(at := pos, acked := acked, gapped := gapped))
  {
    TaskMovesOn(r, epoch, name, q, w, pos, acked, gapped);
    StoreKeepsUp(r, epoch, q, suspendAfter, w, acked, gapped, pos);
    hide TaskOk, StoreOk, ItemOk, CursorStr;
  }

  lemma GoodAfterEvent(r: Ring, epoch: nat, name: string, q: Query, suspendAfter: nat, w: World, s: nat, pos: nat)
    requires Good(r, epoch, name, q, suspendAfter, w) && w.started && w.at <= pos <= r.Head() && s <= pos
    requires forall t :: Max(w.at, w.seed) < t <= pos && r.Matching(q, t) ==> t == s
    ensures Good(r, epoch, name, q, suspendAfter, SettledEvent(w, s, pos))
    ensures NoneBetween(r, q, Max(w.at, w.seed), pos + 1) ==> Good(r, epoch, name, q, suspendAfter, w.(at := pos))
  {
    AllBehind(r, epoch, name, q, suspendAfter, w);
    GoodAfterSettling(r, epoch, name, q, suspendAfter, w, pos, w.acked + {s}, w.gapped);
    hide Good;
    if NoneBetween(r, q, Max(w.at, w.seed), pos + 1) {
      GoodAfterSettling(r, epoch, name, q, suspendAfter, w, pos, w.acked, w.gapped);
    }
  }

  lemma GoodAfterGap(r: Ring, epoch: nat, name: string, q: Query, suspendAfter: nat, w: World, pos: nat)
    requires Good(r, epoch, name, q, suspendAfter, w) && w.started && w.at <= pos <= r.Head()
    ensures Good(r, epoch, name, q, suspendAfter, SettledGap(r, q, w, pos))
  {
    AllBehind(r, epoch, name, q, suspendAfter, w);
    hide Good;
    GoodAfterSettling(r, epoch, name, q, suspendAfter, w, pos, w.acked, SettledGap(r, q, w, pos).gapped);
  }

  /** Nothing beyond the task's position counts as settled. */
  lemma AllBehind(r: Ring, epoch: nat, name: string, q: Query, suspendAfter: nat, w: World)
    requires Good(r, epoch, name, q, suspendAfter, w) && w.started
    ensures forall s :: s in w.acked || s in w.gapped ==> s <= w.at
  {
  }

  lemma GoodAfterMark(r: Ring, epoch: nat, name: string, q: Query, suspendAfter: nat, w: World)
    requires Good(r, epoch, name, q, suspendAfter, w) && w.started
    ensures Good(r, epoch, name, q, suspendAfter, MarkedAt(w, CursorStr(epoch, w.at)))
  {
    hide Covers, Paced, FailStreak, Seed, ItemOk, CursorStr, Pending;
  }

  /** At the head a backfill has got past everything the fan-out can have queued, dropped or passed by. */
  lemma GoodAfterBackfill(r: Ring, epoch: nat, name: string, q: Query, suspendAfter: nat, w: World)
    requires Good(r, epoch, name, q, suspendAfter, w) && w.started && w.at == r.Head()
    ensures Good(r, epoch, name, q, suspendAfter, w.(queueing := true, missed := false))
  {
    var items := Pending(w.inHand, w.queue);
    forall i | 0 <= i < |items| ensures items[i].seqNo <= Max(w.at, w.seed) {
      assert ItemOk(r, epoch, name, items[i]);
    }
    ChainBehind(r, q, Max(w.at, w.seed), items);
    hide Chain, Reach, Paced, FailStreak, Seed, ItemOk, CursorStr, Safe, Pending, Follows;
  }

  lemma GoodAfterPop(r: Ring, epoch: nat, name: string, q: Query, suspendAfter: nat, w: World)
    requires Good(r, epoch, name, q, suspendAfter, w) && w.queueing && w.inHand.None? && w.queue != []
    ensures Good(r, epoch, name, q, suspendAfter, Popped(w))
  {
    hide Covers, Paced, FailStreak, Seed, ItemOk, CursorStr;
    assert Pending(Some(w.queue[0]), w.queue[1..]) == Pending(None, w.queue);
  }

  /** While the record is there, the item in hand continues where the task stands: no matching event that the promise is
      about lies in between. So it can be handled. */
  lemma GoodAfterTaking(r: Ring, epoch: nat, name: string, q: Query, suspendAfter: nat, w: World)
    requires Good(r, epoch, name, q, suspendAfter, w) && w.queueing && w.inHand.Some? && w.slot.Some?
    ensures ItemOk(r, epoch, name, w.inHand.value)
    ensures Good(r, epoch, name, q, suspendAfter, w.(handling := true))
  {
    assert Pending(w.inHand, w.queue)[0] == w.inHand.value;
    FirstFollows(r, q, Max(w.at, w.seed), Pending(w.inHand, w.queue), w.owed, w.fanned);
    hide ItemOk, Covers, Follows, Paced, Safe, CursorStr, Seed;
  }

  /** It stays so while the item is being delivered, whatever record replaces the present one. */
  lemma ItemFollows(r: Ring, epoch: nat, name: string, q: Query, suspendAfter: nat, w: World)
    requires Good(r, epoch, name, q, suspendAfter, w) && w.handling
    ensures w.inHand.Some? && Follows(r, q, Max(w.at, w.seed), w.inHand.value)
  {
  }

  lemma FanAfterItem(r: Ring, epoch: nat, name: string, q: Query, suspendAfter: nat, w: World)
    requires FanOk(r, epoch, name, w) && StoreOk(r, epoch, q, suspendAfter, w) && w.inHand.Some?
    ensures FanOk(r, epoch, name, DoneWith(w)) && StoreOk(r, epoch, q, suspendAfter, DoneWith(w))
  {
    hide Paced, Safe, FailStreak, ItemOk, CursorStr;
  }

  lemma GoodAfterItem(r: Ring, epoch: nat, name: string, q: Query, suspendAfter: nat, w: World)
    requires Good(r, epoch, name, q, suspendAfter, w) && w.queueing && w.inHand.Some? && w.inHand.value.seqNo <= w.at
    ensures Good(r, epoch, name, q, suspendAfter, DoneWith(w))
  {
    hide Paced, Safe, FailStreak, ItemOk, FanOk, StoreOk, CursorStr, Follows;
    FanAfterItem(r, epoch, name, q, suspendAfter, w);
    hide NoneBetween, Seed;
    var all := Pending(w.inHand, w.queue);
    assert all[1..] == w.queue && Pending(None, w.queue) == w.queue;
    assert forall i :: 0 <= i < |w.queue| ==> w.queue[i] == all[i + 1];
  }

  lemma PostLeavesTask(r: Ring, epoch: nat, name: string, q: Query, w: World, x: Post, suspendAfter: nat)
    requires FanOk(r, epoch, name, w) && TaskOk(r, epoch, name, q, w) && x.Post?
    ensures FanOk(r, epoch, name, PostMarked(w, x, suspendAfter))
    ensures TaskOk(r, epoch, name, q, PostMarked(w, x, suspendAfter))
  {
    hide CursorStr, Covers, ItemOk, Pending, Safe;
  }

  lemma GoodAfterPost(r: Ring, epoch: nat, name: string, q: Query, suspendAfter: nat, w: World, x: Post)
    requires Good(r, epoch, name, q, suspendAfter, w) && x.Post? && !x.suspended
    requires suspendAfter > 0 ==> FailStreak(w.posts) < suspendAfter
    ensures Good(r, epoch, name, q, suspendAfter, PostMarked(w, x, suspendAfter))
  {
    PacedMore(suspendAfter, w.posts, x);
    PostLeavesTask(r, epoch, name, q, w, x, suspendAfter);
    hide CursorStr, Paced, FailStreak, Safe, FanOk, TaskOk;
  }

  // ---- What the delivery task can rely on while others run ----

  /** Others refresh the record, or create it anew over the running task. */
  ghost predicate OnlyResets(posts: seq<Post>, posts': seq<Post>) {
    posts <= posts' && forall i :: |posts| <= i < |posts'| ==> posts'[i].Reset? || (posts'[i].Recorded? && posts'[i].over)
  }

  predicate Unsuspended(w: World) {
    w.slot.Some? ==> w.slot.value.active
  }

  ghost predicate Rely(w: World, w': World) {
    && w'.alive && w'.started == w.started && w'.queueing == w.queueing
    && w'.at == w.at && w'.inHand == w.inHand && w'.handling == w.handling
    && w'.acked == w.acked && w'.gapped == w.gapped
    && w.queue <= w'.queue
    && OnlyResets(w.posts, w'.posts)
    && (Unsuspended(w) ==> Unsuspended(w'))
  }

  lemma RelyTransitive(a: World, b: World, c: World)
    requires Rely(a, b) && Rely(b, c)
    ensures Rely(a, c)
  {
    hide Unsuspended;
    forall i | |a.posts| <= i < |c.posts| ensures c.posts[i].Reset? || (c.posts[i].Recorded? && c.posts[i].over) {
      if i < |b.posts| {
        assert (b.posts[i].Reset? || (b.posts[i].Recorded? && b.posts[i].over)) && c.posts[i] == b.posts[i];
      }
    }
  }

  lemma {:induction false} ResetsLower(posts: seq<Post>, posts': seq<Post>)
    requires OnlyResets(posts, posts')
    ensures FailStreak(posts') <= FailStreak(posts) && Era(posts') == Era(posts)
    decreases |posts'|
  {
    if |posts'| > |posts| {
      assert posts'[|posts'| - 1].Reset? || (posts'[|posts'| - 1].Recorded? && posts'[|posts'| - 1].over);
      ResetsLower(posts, posts'[..|posts'| - 1]);
    } else {
      assert posts' == posts;
    }
  }

  /** What a whole delivery leaves of the task's progress: only the record and the queue's tail may differ. */
  ghost predicate TaskKept(w: World, w': World) {
    && w'.alive && w'.started == w.started && w'.queueing == w.queueing
    && w'.at == w.at && w'.inHand == w.inHand && w'.handling == w.handling
    && w'.acked == w.acked && w'.gapped == w.gapped
    && w.queue <= w'.queue && w.posts <= w'.posts
  }

  lemma RelyKeeps(a: World, b: World, c: World)
    requires TaskKept(a, b) && Rely(b, c)
    ensures TaskKept(a, c)
  {
  }

  lemma PostKeeps(a: World, b: World, x: Post, suspendAfter: nat)
    requires TaskKept(a, b) && x.Post?
    ensures TaskKept(a, PostMarked(b, x, suspendAfter))
  {
  }

  // ---- What the POSTs so far amount to ----

  function TopicOf(m: Message): Topic {
    match m case EventMessage(s, _, _) => OfEvent(s) case GapMessage(from, pos, _) => GapOver(from, pos)
  }

  function FailuresFor(posts: seq<Post>, t: Topic): nat {
    if posts == [] then 0
    else
      var x := posts[|posts| - 1];
      FailuresFor(posts[..|posts| - 1], t) + if x.Post? && TopicOf(x.msg) == t && !x.ok then 1 else 0
  }

  /** Between two points of the history the topic was acked, or abandoned: a failure that is not to be retried, or a
      failure of the first attempt and of every retry. */
  ghost predicate Finished(before: seq<Post>, posts: seq<Post>, t: Topic) {
    || (exists k :: |before| <= k < |posts| && posts[k].Post? && TopicOf(posts[k].msg) == t && (posts[k].ok || !posts[k].retryable))
    || FailuresFor(posts, t) >= FailuresFor(before, t) + 4
  }

  /** A message says what the log says, with a cursor of this buffer. */
  ghost predicate MessageOk(r: Ring, epoch: nat, name: string, m: Message) {
    match m
    case EventMessage(s, pos, occ) =>
      r.Has(s) && s <= pos <= r.Head() && occ == OccurrenceOf(r, name, s).(cursor := Some(CursorStr(epoch, pos)))
    case GapMessage(from, pos, cursor) => from <= pos <= r.Head() && cursor == CursorStr(epoch, pos)
  }

  /** Since the books were opened, the topic was acked or abandoned. */
  ghost predicate Finally(posts: seq<Post>, t: Topic) {
    Finished(posts[..Era(posts)], posts, t)
  }

  /** An event was acked or abandoned, or a gap envelope over a span around it was. */
  ghost predicate Settled(posts: seq<Post>, s: nat) {
    Finally(posts, OfEvent(s)) || exists from: nat, pos: nat :: from < s <= pos && Finally(posts, GapOver(from, pos))
  }

  /** Every POST was of a proper message, and what counts as settled was. */
  ghost predicate Backed(r: Ring, epoch: nat, name: string, posts: seq<Post>, acked: set<nat>, gapped: set<nat>) {
    && (forall k :: 0 <= k < |posts| && posts[k].Post? ==> MessageOk(r, epoch, name, posts[k].msg))
    && (forall s :: s in acked || s in gapped ==> Settled(posts, s))
  }

  lemma {:induction false} FailuresGrow(posts: seq<Post>, posts': seq<Post>, t: Topic)
    requires posts <= posts'
    ensures FailuresFor(posts, t) <= FailuresFor(posts', t)
    decreases |posts'|
  {
    if |posts| < |posts'| {
      FailuresGrow(posts, posts'[..|posts'| - 1], t);
    } else {
      assert posts == posts';
    }
  }

  lemma FinishedGrows(before: seq<Post>, posts: seq<Post>, posts': seq<Post>, t: Topic)
    requires Finished(before, posts, t) && posts <= posts'
    ensures Finished(before, posts', t)
  {
    FailuresGrow(posts, posts', t);
    if k :| |before| <= k < |posts| && posts[k].Post? && TopicOf(posts[k].msg) == t && (posts[k].ok || !posts[k].retryable) {
      assert posts'[k] == posts[k];
    }
  }

  /** What was finished between two points of the same era is finished for good. */
  lemma FinishedIsFinal(before: seq<Post>, posts: seq<Post>, t: Topic)
    requires Finished(before, posts, t) && before <= posts && Era(posts) == Era(before)
    ensures Finally(posts, t)
  {
    assert posts[..Era(posts)] == before[..Era(before)];
    FailuresGrow(before[..Era(before)], before, t);
  }

  lemma FinallyGrows(posts: seq<Post>, posts': seq<Post>, t: Topic)
    requires Finally(posts, t) && posts <= posts' && Era(posts') == Era(posts)
    ensures Finally(posts', t)
  {
    assert posts'[..Era(posts')] == posts[..Era(posts)];
    FinishedGrows(posts[..Era(posts)], posts, posts', t);
  }

  lemma SettledGrows(posts: seq<Post>, posts': seq<Post>, s: nat)
    requires Settled(posts, s) && posts <= posts' && Era(posts') == Era(posts)
    ensures Settled(posts', s)
  {
    hide Finally;
    if Finally(posts, OfEvent(s)) {
      FinallyGrows(posts, posts', OfEvent(s));
    } else {
      var from: nat, pos: nat :| from < s <= pos && Finally(posts, GapOver(from, pos));
      FinallyGrows(posts, posts', GapOver(from, pos));
    }
  }

  lemma MessagesStay(r: Ring, r': Ring, epoch: nat, name: string, posts: seq<Post>, posts': seq<Post>)
    requires Evolves(r, r') && posts <= posts'
    requires forall k :: 0 <= k < |posts| && posts[k].Post? ==> MessageOk(r, epoch, name, posts[k].msg)
    requires forall k :: |posts| <= k < |posts'| && posts'[k].Post? ==> MessageOk(r', epoch, name, posts'[k].msg)
    ensures forall k :: 0 <= k < |posts'| && posts'[k].Post? ==> MessageOk(r', epoch, name, posts'[k].msg)
  {
    forall k | 0 <= k < |posts'| && posts'[k].Post? ensures MessageOk(r', epoch, name, posts'[k].msg) {
      if k < |posts| {
        assert posts[k] == posts'[k] && MessageOk(r, epoch, name, posts[k].msg);
      }
    }
  }

  lemma BackedGrows(r: Ring, r': Ring, epoch: nat, name: string, posts: seq<Post>, posts': seq<Post>, acked: set<nat>, gapped: set<nat>)
    requires Evolves(r, r') && Backed(r, epoch, name, posts, acked, gapped) && posts <= posts' && Era(posts') == Era(posts)
    requires forall k :: |posts| <= k < |posts'| && posts'[k].Post? ==> MessageOk(r', epoch, name, posts'[k].msg)
    ensures Backed(r', epoch, name, posts', acked, gapped)
  {
    hide MessageOk, Settled, Evolves;
    MessagesStay(r, r', epoch, name, posts, posts');
    forall s | s in acked || s in gapped ensures Settled(posts', s) {
      SettledGrows(posts, posts', s);
    }
  }

  /** A fresh record opens new books. */
  lemma BackedAfresh(r: Ring, epoch: nat, name: string, posts: seq<Post>, acked: set<nat>, gapped: set<nat>, start: Option<nat>)
    requires Backed(r, epoch, name, posts, acked, gapped)
    ensures Backed(r, epoch, name, posts + [Recorded(start, false)], {}, {})
  {
    hide MessageOk, Settled;
    var all := posts + [Recorded(start, false)];
    assert forall k :: 0 <= k < |posts| ==> all[k] == posts[k];
  }

  lemma BackedWider(r: Ring, epoch: nat, name: string, posts: seq<Post>, acked: set<nat>, gapped: set<nat>,
                    acked': set<nat>, gapped': set<nat>)
    requires Backed(r, epoch, name, posts, acked, gapped)
    requires forall s :: s in acked' || s in gapped' ==> s in acked || s in gapped || Settled(posts, s)
    ensures Backed(r, epoch, name, posts, acked', gapped')
  {
    hide MessageOk, Settled;
  }

  lemma GapSettles(posts: seq<Post>, from: nat, pos: nat, s: nat)
    requires Finally(posts, GapOver(from, pos)) && from < s <= pos
    ensures Settled(posts, s)
  {
    hide Finally;
  }

  /** An active record has not used up its failures. */
  lemma ActiveBelow(r: Ring, epoch: nat, name: string, q: Query, suspendAfter: nat, w: World)
    requires Good(r, epoch, name, q, suspendAfter, w) && w.slot.Some? && w.slot.value.active
    ensures suspendAfter > 0 ==> FailStreak(w.posts) < suspendAfter
  {
  }

  predicate Unstarted(w: World) {
    !w.started && !w.queueing && w.inHand.None? && !w.handling
  }

  /** What any step of the others guarantees: the history only grows; a running task keeps what it relies on; otherwise
      no task has started. */
  ghost predicate Calm(w: World, w': World) {
    w.posts <= w'.posts && if w.alive then Rely(w, w') else Unstarted(w) ==> Unstarted(w')
  }

  /** The same promise in terms of the history alone: from where the record's promise starts. */
  ghost predicate WatermarkDelivered(r: Ring, epoch: nat, q: Query, slot: Option<Sub>, mark: nat, posts: seq<Post>) {
    slot.Some? && slot.value.cursor.Some? ==>
      && slot.value.cursor.value == CursorStr(epoch, mark) && Seed(posts).Some?
      && forall s :: Seed(posts).value < s <= mark && r.Matching(q, s) ==> Settled(posts, s)
  }

  lemma WatermarkIsDelivered(r: Ring, epoch: nat, name: string, q: Query, suspendAfter: nat, w: World)
    requires Good(r, epoch, name, q, suspendAfter, w) && Backed(r, epoch, name, w.posts, w.acked, w.gapped)
    ensures WatermarkDelivered(r, epoch, q, w.slot, w.mark, w.posts)
  {
    hide Settled, MessageOk, Paced, FanOk, TaskOk, Seed, FailStreak, CursorStr;
  }

  /** The watermark promise: everything matching above the position the record was created with, and up to the stored
      cursor, was acked or abandoned, or lies under a gap envelope that was. */
  ghost predicate SafeWatermark(r: Ring, epoch: nat, q: Query, w: World) {
    w.slot.Some? && w.slot.value.cursor.Some? ==>
      && w.slot.value.cursor.value == CursorStr(epoch, w.mark)
      && forall s :: w.seed < s <= w.mark && r.Matching(q, s) ==> s in w.acked || s in w.gapped
  }

  lemma WatermarkIsSafe(r: Ring, epoch: nat, name: string, q: Query, suspendAfter: nat, w: World)
    requires Good(r, epoch, name, q, suspendAfter, w)
    ensures SafeWatermark(r, epoch, q, w) && Paced(suspendAfter, w.posts)
    ensures !w.alive ==> Unstarted(w)
  {
  }

  // ---- A record created over a delivery task that is still running ----

  /** A task that has drained its queue, while the fan-out is between two items and owes nothing. */
  predicate Drained(w: World) {
    && w.alive && !w.closing && w.queueing && w.inHand.None? && w.queue == [] && w.phase.Idle? && !w.owed && w.at <= w.rx
  }

  /** The record is created anew at position `pos` although the task lives on, and the next event goes its normal way:
      received, listed, sent, popped, acked and marked. */
  function ReusedTask(w: World, epoch: nat, pos: nat, occ: EventOccurrence): World
    requires w.cacheVerified && w.alive && !w.owed && w.inHand.None? && w.queue == []
  {
    var w1 := CreatedOver(w, CursorStr(epoch, pos), pos);
    var w2 := FanEnsured(FanListed(FanReceived(w1, occ)));
    var w3 := Popped(FanSent(w2, w2.phase.item));
    var n := w3.inHand.value.seqNo;
    DoneWith(MarkedAt(SettledEvent(w3, n, n), CursorStr(epoch, n)))
  }

  /** The condition of `CreateOverIff` is exact for the promise itself: once the next event has been delivered, the
      watermark is safe exactly when re-creating the record kept the invariant. */
  lemma ReuseIsSafeIff(r: Ring, r': Ring, epoch: nat, name: string, q: Query, suspendAfter: nat, w: World,
                       pos: nat, occ: EventOccurrence)
    requires Good(r, epoch, name, q, suspendAfter, w) && Drained(w) && pos <= r.Head()
    requires Evolves(r, r') && w.rx < r'.Head()
    ensures var w' := ReusedTask(w, epoch, pos, occ);
            && w'.slot.Some? && w'.seed == pos && w'.mark == w.rx + 1
            && (SafeWatermark(r', epoch, q, w') <==>
                Good(r, epoch, name, q, suspendAfter, CreatedOver(w, CursorStr(epoch, pos), pos)))
  {
    CreateOverIff(r, epoch, name, q, suspendAfter, w, pos);
    AllBehind(r, epoch, name, q, suspendAfter, w);
    NothingHeld(r, q, Max(w.at, pos), w.owed, w.fanned);
    ReuseOutcome(r, r', epoch, q, w, pos, occ);
  }

  lemma NothingHeld(r: Ring, q: Query, c: nat, owed: bool, fanned: nat)
    ensures Covers(r, q, c, Pending(None, []), owed, fanned) <==> owed || NoneBetween(r, q, c, fanned + 1)
  {
  }

  lemma ReuseOutcome(r: Ring, r': Ring, epoch: nat, q: Query, w: World, pos: nat, occ: EventOccurrence)
    requires Drained(w) && w.cacheVerified && Evolves(r, r') && w.at <= w.rx <= r.Head() && w.rx < r'.Head()
    requires forall s :: s in w.acked || s in w.gapped ==> s <= w.at
    ensures var w' := ReusedTask(w, epoch, pos, occ);
            && w'.slot.Some? && w'.seed == pos && w'.mark == w.rx + 1
            && (SafeWatermark(r', epoch, q, w') <==>
                Safe(r, q, w.acked, w.gapped, pos, w.at) && NoneBetween(r, q, Max(w.at, pos), w.rx + 1))
  {
    hide CursorStr;
    var w' := ReusedTask(w, epoch, pos, occ);
    assert forall s: nat :: s <= r.Head() ==> r'.Matching(q, s) == r.Matching(q, s);
    assert w'.acked == w.acked + {w.rx + 1} && w'.gapped == w.gapped;
    if SafeWatermark(r', epoch, q, w') {
      forall s | pos < s <= w.at && r.Matching(q, s) ensures s in w.acked || s in w.gapped {
        assert r'.Matching(q, s);
      }
      forall s | Max(w.at, pos) < s < w.rx + 1 ensures !r.Matching(q, s) {
        assert r'.Matching(q, s) ==> s in w'.acked || s in w.gapped;
      }
    }
  }

  /** A task that delivered event 1 for its record and waits for more. */
  function WaitingTask(epoch: nat): World {
    World(Some(Sub(Some(CursorStr(epoch, 1)), true, true, 0)), true, true, false, [], 1, Idle, false, 1, false,
          true, true, 1, None, false, 1, 1, {}, {}, [Recorded(Some(1), false)])
  }

  lemma WaitingIsGood(e: Event, epoch: nat, name: string)
    requires epoch < U64_LIMIT
    ensures Good(Ring([e], 0), epoch, name, Query(None, None), 5, WaitingTask(epoch)) && Drained(WaitingTask(epoch))
  {
    hide CursorStr;
    var w := WaitingTask(epoch);
    NothingHeld(Ring([e], 0), Query(None, None), 1, false, 1);
    hide Covers;
    assert w.posts[..0] == [];
    assert forall k :: 0 <= k <= 1 ==> FailStreak(w.posts[..k]) == 0;
  }

  /** The new record starts before the old one: the event in between is never delivered, and the watermark passes it. */
  lemma ReuseLosesEarlier(e: Event, epoch: nat, name: string)
    requires epoch < U64_LIMIT
    ensures var r, r', q := Ring([e], 0), Ring([e, e], 0), Query(None, None);
            var occ := OccurrenceOf(r', name, 2).(cursor := Some(CursorStr(epoch, 2)));
            && Good(r, epoch, name, q, 5, WaitingTask(epoch))
            && !SafeWatermark(r', epoch, q, ReusedTask(WaitingTask(epoch), epoch, 0, occ))
  {
    hide CursorStr;
    WaitingIsGood(e, epoch, name);
    var r, r', q := Ring([e], 0), Ring([e, e], 0), Query(None, None);
    var occ := OccurrenceOf(r', name, 2).(cursor := Some(CursorStr(epoch, 2)));
    ReuseOutcome(r, r', epoch, q, WaitingTask(epoch), 0, occ);
    assert r.Matching(q, 1);
  }

  /** An event comes while there is no record, and the fan-out passes it by; the new record starts where the old one
      stood, but its task is not given that event, and the watermark passes it. */
  lemma ReuseLosesPassedBy(e: Event, epoch: nat, name: string)
    requires epoch < U64_LIMIT
    ensures var r2, r3, q := Ring([e, e], 0), Ring([e, e, e], 0), Query(None, None);
            var occ2 := OccurrenceOf(r2, name, 2).(cursor := Some(CursorStr(epoch, 2)));
            var occ3 := OccurrenceOf(r3, name, 3).(cursor := Some(CursorStr(epoch, 3)));
            var w := FanListed(FanReceived(Removed(WaitingTask(epoch)), occ2));
            && Good(r2, epoch, name, q, 5, w) && Safe(r2, q, w.acked, w.gapped, 1, w.at)
            && !SafeWatermark(r3, epoch, q, ReusedTask(w, epoch, 1, occ3))
  {
    hide CursorStr, Paced, Chain, FailStreak;
    WaitingIsGood(e, epoch, name);
    var r1, r2, r3, q := Ring([e], 0), Ring([e, e], 0), Ring([e, e, e], 0), Query(None, None);
    var occ2 := OccurrenceOf(r2, name, 2).(cursor := Some(CursorStr(epoch, 2)));
    var occ3 := OccurrenceOf(r3, name, 3).(cursor := Some(CursorStr(epoch, 3)));
    var w0 := WaitingTask(epoch);
    GoodStable(r1, r2, epoch, name, q, 5, w0);
    GoodAfterRemove(r2, epoch, name, q, 5, w0);
    GoodAfterReceive(r2, epoch, name, q, 5, Removed(w0), occ2);
    GoodAfterList(r2, epoch, name, q, 5, FanReceived(Removed(w0), occ2));
    hide Good;
    var w := FanListed(FanReceived(Removed(w0), occ2));
    ReuseOutcome(r2, r3, epoch, q, w, 1, occ3);
    assert r2.Matching(q, 2);
  }
}
