/** The webhook delivery worker for one subscription: fan-out, and one delivery task that backfills and then drains. */
module Worker {
  import opened Cursors
  import opened Log
  import opened Buffer
  import opened Pipeline
  import opened Delivery
  import opened Stream

  /** The cursors that subscribe requests have been given by their probes. */
  ghost predicate Probed(r: Ring, epoch: nat, q: Query, probed: seq<string>, probes: seq<Opening>) {
    && |probed| == |probes|
    && forall k :: 0 <= k < |probed| ==> WasOpened(r, epoch, q, probes[k]) && probed[k] == CursorStr(epoch, probes[k].out.pos)
  }

  lemma GapSection(r: Ring, epoch: nat, name: string, w: World)
    ensures w.phase.Lagged? ==> FanStepped(r, epoch, name, 0, w, w.(phase := Holding(HeadGap(CursorStr(epoch, r.Head())))))
    ensures w.phase.Ensured? ==> FanStepped(r, epoch, name, 0, w, w.(phase := Sending(HeadGap(CursorStr(epoch, r.Head())))))
  {
    hide CursorStr;
  }

  lemma ListSection(r: Ring, epoch: nat, name: string, w: World, w': World)
    requires w.phase.Holding? && w' == FanListed(w)
    ensures FanStepped(r, epoch, name, 0, w, w') && Calm(w, w')
  {
    hide CursorStr;
  }

  /** Only a receiver that is idle can lag. */
  lemma NextIgnored(r: Ring, epoch: nat, name: string, next: nat, w: World, w': World)
    requires !w.phase.Idle?
    ensures FanStepped(r, epoch, name, 0, w, w') <==> FanStepped(r, epoch, name, next, w, w')
  {
    hide CursorStr;
  }

  lemma NothingProbed(r: Ring, epoch: nat, q: Query)
    ensures Probed(r, epoch, q, [], [])
  {
  }

  lemma ProbedStable(r: Ring, r': Ring, epoch: nat, q: Query, probed: seq<string>, probes: seq<Opening>)
    requires Evolves(r, r') && Probed(r, epoch, q, probed, probes)
    ensures Probed(r', epoch, q, probed, probes)
  {
    hide Reads, CursorStr;
  }

  lemma ProbedMore(r: Ring, epoch: nat, q: Query, probed: seq<string>, probes: seq<Opening>, cursor: string, x: Opening)
    requires Probed(r, epoch, q, probed, probes) && WasOpened(r, epoch, q, x) && cursor == CursorStr(epoch, x.out.pos)
    ensures Probed(r, epoch, q, probed + [cursor], probes + [x])
  {
    hide WasOpened, CursorStr;
  }

  lemma ProbedLess(r: Ring, epoch: nat, q: Query, probed: seq<string>, probes: seq<Opening>, k: nat)
    requires epoch < U64_LIMIT && Probed(r, epoch, q, probed, probes) && k < |probed|
    ensures Probed(r, epoch, q, probed[..k] + probed[k + 1..], probes[..k] + probes[k + 1..])
    ensures WasOpened(r, epoch, q, probes[k]) && probes[k].out.pos <= r.Head()
    ensures probed[k] == CursorStr(epoch, probes[k].out.pos) && SeqOf(probed[k]) == probes[k].out.pos
  {
    hide Reads, CursorStr, SeqOf;
    OpeningResumes(r, epoch, q, probes[k]);
    CursorRoundTrip(epoch, probes[k].out.pos);
  }

  lemma PairedUp(r: Ring, epoch: nat, q: Query, probed: seq<string>, probes: seq<Opening>)
    requires Probed(r, epoch, q, probed, probes)
    ensures |probed| == |probes|
  {
  }

  /** How a delivery task ends: the record was gone, its sender was dropped, or not while it was observed. */
  datatype End = Vanished | Dropped | Unfinished

  class Worker {
    const buf: EventBuffer
    const name: string
    const q: Query
    const suspendAfter: nat
    // The store's record of the subscription, and the verification cache.
    var slot: Option<Sub>
    var cacheVerified: bool
    // The delivery task's channel.
    var alive: bool
    var closing: bool
    var queue: seq<Item>
    // The fan-out loop.
    var rx: nat
    var phase: FanPhase
    var owed: bool
    ghost var fanned: nat
    // The delivery task, and what is known about its progress.
    var started: bool
    var queueing: bool
    ghost var at: nat
    var inHand: Option<Item>
    ghost var handling: bool
    var missed: bool
    var seed: nat
    ghost var mark: nat
    ghost var acked: set<nat>
    ghost var gapped: set<nat>
    ghost var posts: seq<Post>
    // Subscribe requests that have probed the buffer for their start and not created their record yet.
    var probed: seq<string>
    ghost var probes: seq<Opening>

    ghost function State(): World
      reads this
    {
      World(slot, cacheVerified, alive, closing, queue, rx, phase, owed, fanned, missed,
            started, queueing, at, inHand, handling, seed, mark, acked, gapped, posts)
    }

    ghost predicate Inv()
      reads this, buf
    {
      && buf.Valid() && Good(buf.RingOf(name), buf.epoch, name, q, suspendAfter, State())
      && Backed(buf.RingOf(name), buf.epoch, name, posts, acked, gapped)
      && Probed(buf.RingOf(name), buf.epoch, q, probed, probes)
    }

    /** No subscription yet; the fan-out subscribes to the live channel. */
    constructor (buf: EventBuffer, name: string, q: Query, suspendAfter: nat)
      requires buf.Valid()
      modifies buf
      ensures Inv() && this.buf == buf && this.name == name && this.q == q && this.suspendAfter == suspendAfter
      ensures slot.None? && !alive && posts == [] && probed == []
      ensures forall n :: buf.RingOf(n) == old(buf.RingOf(n))
    {
      hide Good, Backed, Probed, EventBuffer.Valid, EventBuffer.RingOf;
      this.buf, this.name, this.q, this.suspendAfter := buf, name, q, suspendAfter;
      slot, cacheVerified, alive, closing, queue := None, false, false, false, [];
      phase, owed, inHand := Idle, false, None;
      started, queueing, at, handling, missed, seed, mark := false, false, 0, false, false, 0, 0;
      acked, gapped, posts := {}, {}, [];
      probed, probes := [], [];
      rx, fanned := 0, 0;
      new;
      rx := buf.Live(name);
      fanned := rx;
      GoodAtStart(buf.RingOf(name), buf.epoch, name, q, suspendAfter, State());
      NothingBacked(buf.RingOf(name), buf.epoch, name);
      NothingProbed(buf.RingOf(name), buf.epoch, q);
    }

    // ---- The store's other users ----

    method Refresh()
      requires Inv() && slot.Some?
      modifies this`slot, this`posts
      ensures Inv() && State() == Refreshed(old(State()))
    {
      hide Good, Backed, Probed, EventBuffer.Valid, EventBuffer.RingOf;
      ghost var r := buf.RingOf(name);
      GoodAfterRefresh(r, buf.epoch, name, q, suspendAfter, State());
      PostsMore(posts, Reset);
      BackedGrows(r, r, buf.epoch, name, posts, posts + [Reset], acked, gapped);
      slot := Some(slot.value.(active := true, streak := 0, verified := cacheVerified));
      posts := posts + [Reset];
    }

    method SetVerified()
      requires Inv()
      modifies this`slot, this`cacheVerified
      ensures Inv() && State() == Verified(old(State()))
    {
      hide Good, Backed, Probed, EventBuffer.Valid, EventBuffer.RingOf;
      GoodAfterVerify(buf.RingOf(name), buf.epoch, name, q, suspendAfter, State());
      cacheVerified := true;
      if slot.Some? {
        slot := Some(slot.value.(verified := true));
      }
    }

    /** Unsubscribe, failed verification or expiry; the sweep then also drops the sender. */
    method Remove(drop: bool)
      requires Inv()
      modifies this`slot, this`closing
      ensures Inv() && slot.None?
      ensures State() == if drop then Removed(old(State())).(closing := true) else Removed(old(State()))
    {
      hide Good, Backed, Probed, EventBuffer.Valid, EventBuffer.RingOf;
      GoodAfterRemove(buf.RingOf(name), buf.epoch, name, q, suspendAfter, State());
      slot := None;
      if drop {
        DropSender();
      }
    }

    method DropSender()
      modifies this`closing
      ensures State() == old(State()).(closing := true)
    {
      closing := true;
    }

    /** The first half of the subscribe handler: a probe of the buffer normalizes the requested start. Until the second
        half runs, anything may happen. */
    method ProbeStart(cursor: Option<string>, maxAgeMs: Option<nat>)
      requires Inv()
      modifies this`probed, this`probes, buf
      ensures Inv() && Evolves(old(buf.RingOf(name)), buf.RingOf(name)) && State() == old(State())
      ensures |probes| == |old(probes)| + 1 && probes[..|old(probes)|] == old(probes)
      ensures probes[|old(probes)|].cursor == cursor && probes[|old(probes)|].ring == buf.RingOf(name)
    {
      hide Good, Backed, Probed, WasOpened, EventBuffer.Valid, EventBuffer.RingOf, CursorStr;
      ghost var r0 := buf.RingOf(name);
      var rx', probe;
      ghost var x;
      rx', probe, x := EventStream.Probe(buf, name, cursor, maxAgeMs, q);
      ghost var r := buf.RingOf(name);
      GoodStable(r0, r, buf.epoch, name, q, suspendAfter, State());
      BackedGrows(r0, r, buf.epoch, name, posts, posts, acked, gapped);
      ProbedStable(r0, r, buf.epoch, q, probed, probes);
      ProbedMore(r, buf.epoch, q, probed, probes, probe.cursor, x);
      probed, probes := probed + [probe.cursor], probes + [x];
    }

    /** The second half, for a request that probed some time ago: the record is created. Over a task that is still running
        it is created only where that is harmless. */
    method Subscribe(k: nat) returns (created: bool)
      requires Inv() && k < |probed| == |probes|
      modifies this
      ensures Inv() && Calm(old(State()), State())
      ensures created ==> slot.Some? && slot.value.cursor == Some(CursorStr(buf.epoch, seed))
      ensures created ==> Seed(posts) == Some(seed) && seed == old(probes)[k].out.pos
      ensures !old(alive) ==> created
      ensures !created ==> State() == old(State())
    {
      hide Good, Backed, Probed, Calm, Seed, EventBuffer.Valid, EventBuffer.RingOf, CursorStr, SeqOf, ParseSeq;
      var cursor;
      ghost var x;
      cursor, x := TakeProbe(k);
      var start := SeqOf(cursor);
      var head := buf.SentCount(name);
      created := !alive || !started || start == head || (seed <= start && (!queueing || !missed));
      if created {
        Create(cursor, start);
      } else {
        CalmReflexive(State());
      }
    }

    method TakeProbe(k: nat) returns (cursor: string, ghost x: Opening)
      requires Inv() && k < |probed| == |probes|
      modifies this`probed, this`probes
      ensures Inv() && State() == old(State())
      ensures x == old(probes)[k] && x.out.pos <= buf.RingOf(name).Head() && WasOpened(buf.RingOf(name), buf.epoch, q, x)
      ensures cursor == CursorStr(buf.epoch, x.out.pos) && SeqOf(cursor) == x.out.pos
    {
      hide Good, Backed, Probed, EventBuffer.Valid, EventBuffer.RingOf, CursorStr, SeqOf;
      cursor, x := probed[k], probes[k];
      ProbedLess(buf.RingOf(name), buf.epoch, q, probed, probes, k);
      probed, probes := probed[..k] + probed[k + 1..], probes[..k] + probes[k + 1..];
    }

    /** The store's create, fresh or over a running task. */
    method Create(cursor: string, start: nat)
      requires Inv() && cursor == CursorStr(buf.epoch, start) && start <= buf.RingOf(name).Head()
      requires alive ==> Harmless(State(), start, buf.RingOf(name).Head())
      modifies this
      ensures Inv() && Calm(old(State()), State()) && Seed(posts) == Some(start)
      ensures State() == if old(alive) then CreatedOver(old(State()), cursor, start) else Created(old(State()), Some(cursor), start)
    {
      hide Good, Backed, Probed, CursorStr, Seed, Calm, Created, CreatedOver, Harmless, EventBuffer.Valid, EventBuffer.RingOf;
      CreateIsCalm(State(), cursor, start);
      if alive {
        CreateOver(cursor, start);
      } else {
        CreateFresh(cursor, start);
      }
    }

    method CreateOver(cursor: string, start: nat)
      requires Inv() && alive && cursor == CursorStr(buf.epoch, start) && start <= buf.RingOf(name).Head()
      requires Harmless(State(), start, buf.RingOf(name).Head())
      modifies this`slot, this`seed, this`mark, this`missed, this`posts
      ensures Inv() && State() == CreatedOver(old(State()), cursor, start) && Seed(posts) == Some(start)
    {
      hide Good, Backed, Probed, CursorStr, Seed, Era, Harmless, EventBuffer.Valid, EventBuffer.RingOf;
      ghost var r, x := buf.RingOf(name), Recorded(Some(start), true);
      GoodAfterCreateOver(r, buf.epoch, name, q, suspendAfter, State(), start);
      PostsMore(posts, x);
      BackedGrows(r, r, buf.epoch, name, posts, posts + [x], acked, gapped);
      PutRecord(cursor, start);
      missed := false;
      posts := posts + [x];
    }

    method CreateFresh(cursor: string, start: nat)
      requires Inv() && !alive && cursor == CursorStr(buf.epoch, start) && start <= buf.RingOf(name).Head()
      modifies this`slot, this`seed, this`mark, this`acked, this`gapped, this`posts
      ensures Inv() && State() == Created(old(State()), Some(cursor), start) && Seed(posts) == Some(start)
    {
      hide Good, Backed, Probed, CursorStr, Seed, Era, EventBuffer.Valid, EventBuffer.RingOf;
      ghost var r, x := buf.RingOf(name), Recorded(Some(start), false);
      GoodAfterCreate(r, buf.epoch, name, q, suspendAfter, State(), Some(cursor), start);
      PostsMore(posts, x);
      BackedAfresh(r, buf.epoch, name, posts, acked, gapped, Some(start));
      PutRecord(cursor, start);
      OpenBooks(x);
    }

    ghost method OpenBooks(x: Post)
      modifies this`posts, this`acked, this`gapped
      ensures State() == old(State()).(posts := old(posts) + [x], acked := {}, gapped := {})
    {
      posts, acked, gapped := posts + [x], {}, {};
    }

    method PutRecord(cursor: string, start: nat)
      modifies this`slot, this`seed, this`mark
      ensures State() ==
        old(State()).(slot := Some(Sub(Some(cursor), true, cacheVerified, 0)), seed := start, mark := start)
    {
      slot := Some(Sub(Some(cursor), true, cacheVerified, 0));
      seed, mark := start, start;
    }

    /** Starts a delivery task with an empty queue. */
    method Spawn()
      requires Inv() && !alive && cacheVerified
      modifies this
      ensures Inv() && State() == Spawned(old(State()))
    {
      hide Good, Backed, Probed, EventBuffer.Valid, EventBuffer.RingOf;
      GoodAfterSpawn(buf.RingOf(name), buf.epoch, name, q, suspendAfter, State());
      SpawnTask();
    }

    method SpawnTask()
      modifies this`alive, this`closing, this`queue, this`started, this`queueing, this`inHand, this`handling, this`missed
      ensures State() == Spawned(old(State()))
    {
      OpenChannel();
      ResetTask();
    }

    method ResetTask()
      modifies this`started, this`queueing, this`inHand, this`handling, this`missed
      ensures State() ==
        old(State()).(started := false, queueing := false, inHand := None, handling := false, missed := false)
    {
      started, queueing, missed := false, false, false;
      LetGo();
    }

    method LetGo()
      modifies this`inHand, this`handling
      ensures State() == old(State()).(inHand := None, handling := false)
    {
      inHand, handling := None, false;
    }

    method OpenChannel()
      modifies this`alive, this`closing, this`queue
      ensures State() == old(State()).(alive := true, closing := false, queue := [])
    {
      alive, closing, queue := true, false, [];
    }

    // ---- The fan-out loop, one locked section at a time ----

    /** One step of the fan-out; `next` is where a lagging receiver is moved to. */
    method FanStep(next: nat)
      requires Inv()
      modifies this
      ensures Inv()
      ensures Calm(old(State()), State())
      ensures FanStepped(buf.RingOf(name), buf.epoch, name, next, old(State()), State())
    {
      hide Good, Backed, Probed, Calm, EventBuffer.Valid, EventBuffer.RingOf, CursorStr, ParseSeq;
      ghost var w := State();
      match phase {
        case Idle => FanReceive(next);
        case Lagged => FanLagCursor();
        case Holding(_) => FanList();
        case Ready(_) => FanEnsure();
        case Ensured(_) => FanOwedCursor();
        case Sending(_) => FanSend();
        case Reopening(_) => FanReopen();
        case Resending(_) => FanResend();
      }
      if !w.phase.Idle? {
        NextIgnored(buf.RingOf(name), buf.epoch, name, next, w, State());
      }
    }

    /** Receives the next live event, or a lag. */
    method FanReceive(next: nat)
      requires Inv() && phase.Idle?
      modifies this
      ensures Inv()
      ensures Calm(old(State()), State())
      ensures FanStepped(buf.RingOf(name), buf.epoch, name, next, old(State()), State())
    {
      hide Good, Backed, Probed, EventBuffer.Valid, EventBuffer.RingOf, CursorStr;
      var sent := buf.SentCount(name);
      if rx < sent {
        if rx < next <= sent {
          GoodAfterLag(buf.RingOf(name), buf.epoch, name, q, suspendAfter, State(), next);
          TakeUp(next, Lagged);
        } else {
          var seqNo, occ := buf.Recv(name, rx);
          GoodAfterReceive(buf.RingOf(name), buf.epoch, name, q, suspendAfter, State(), occ);
          TakeUp(seqNo, Holding(EventItem(seqNo, occ)));
        }
      }
    }

    method TakeUp(next: nat, phase': FanPhase)
      modifies this`rx, this`phase
      ensures State() == old(State()).(rx := next, phase := phase')
    {
      rx, phase := next, phase';
    }

    method GapAtHead() returns (x: Item)
      requires buf.Valid()
      ensures x == HeadGap(CursorStr(buf.epoch, buf.RingOf(name).Head()))
    {
      var cursor := buf.CurrentCursor(name);
      var seqNo := match ParseSeq(cursor) case Some(s) => s case None => U64_LIMIT - 1;
      x := GapItem(seqNo, cursor);
    }

    method FanLagCursor()
      requires Inv() && phase.Lagged?
      modifies this
      ensures Inv()
      ensures Calm(old(State()), State())
      ensures FanStepped(buf.RingOf(name), buf.epoch, name, 0, old(State()), State())
    {
      hide Good, Backed, Probed, Calm, FanStepped, EventBuffer.Valid, EventBuffer.RingOf, CursorStr, HeadGap;
      GapSection(buf.RingOf(name), buf.epoch, name, State());
      PhaseIsCalm(State(), Holding(HeadGap(CursorStr(buf.epoch, buf.RingOf(name).Head()))));
      GoodAfterLagCursor(buf.RingOf(name), buf.epoch, name, q, suspendAfter, State());
      var x := GapAtHead();
      phase := Holding(x);
    }

    method FanList()
      requires Inv() && phase.Holding?
      modifies this
      ensures Inv()
      ensures Calm(old(State()), State())
      ensures FanStepped(buf.RingOf(name), buf.epoch, name, 0, old(State()), State())
    {
      hide Good, Backed, Probed, Calm, EventBuffer.Valid, EventBuffer.RingOf, FanStepped, FanListed;
      ghost var w := State();
      GoodAfterList(buf.RingOf(name), buf.epoch, name, q, suspendAfter, w);
      TakeListed();
      ListSection(buf.RingOf(name), buf.epoch, name, w, State());
    }

    method TakeListed()
      requires phase.Holding?
      modifies this`phase, this`owed, this`fanned, this`missed
      ensures State() == FanListed(old(State()))
    {
      var passed := slot.None? || !slot.value.verified;
      var suspended := !passed && !slot.value.active;
      missed := missed || slot.None?;
      if passed || suspended {
        SettleFan(owed || suspended);
      } else {
        phase := Ready(phase.item);
      }
    }

    /** Makes sure there is a delivery task. When one is still winding down after its sender was dropped, a second one
        would overlap it; such runs are not modelled. */
    method FanEnsure()
      requires Inv() && phase.Ready?
      modifies this
      ensures Inv()
      ensures Calm(old(State()), State())
      ensures FanStepped(buf.RingOf(name), buf.epoch, name, 0, old(State()), State())
    {
      hide Good, Backed, Probed, EventBuffer.Valid, EventBuffer.RingOf;
      if alive && closing {
        return;
      }
      GoodAfterEnsure(buf.RingOf(name), buf.epoch, name, q, suspendAfter, State());
      if !alive {
        SpawnTask();
      }
      if owed {
        phase := Ensured(phase.item);
      } else {
        phase := Sending(phase.item);
      }
    }

    method FanOwedCursor()
      requires Inv() && phase.Ensured?
      modifies this
      ensures Inv()
      ensures Calm(old(State()), State())
      ensures FanStepped(buf.RingOf(name), buf.epoch, name, 0, old(State()), State())
    {
      hide Good, Backed, Probed, Calm, FanStepped, EventBuffer.Valid, EventBuffer.RingOf, CursorStr, HeadGap;
      GapSection(buf.RingOf(name), buf.epoch, name, State());
      PhaseIsCalm(State(), Sending(HeadGap(CursorStr(buf.epoch, buf.RingOf(name).Head()))));
      GoodAfterOwedCursor(buf.RingOf(name), buf.epoch, name, q, suspendAfter, State());
      var x := GapAtHead();
      phase := Sending(x);
    }

    method FanSend()
      requires Inv() && phase.Sending?
      modifies this
      ensures Inv()
      ensures Calm(old(State()), State())
      ensures FanStepped(buf.RingOf(name), buf.epoch, name, 0, old(State()), State())
    {
      hide Good, Backed, Probed, EventBuffer.Valid, EventBuffer.RingOf;
      if !alive {
        GoodAfterClosed(buf.RingOf(name), buf.epoch, name, q, suspendAfter, State());
        phase := Reopening(phase.item);
      } else {
        TrySend();
      }
    }

    /** The fan-out is done with its item, and a gap is owed or not. */
    method SettleFan(owe: bool)
      modifies this`phase, this`owed, this`fanned
      ensures State() == old(State()).(phase := Idle, owed := owe, fanned := rx)
    {
      phase, owed, fanned := Idle, owe, rx;
    }

    /** The queue accepts the item, or it is full and a gap is owed. */
    method TrySend()
      requires Inv() && (phase.Sending? || phase.Resending?) && alive
      modifies this
      ensures Inv()
      ensures Rely(old(State()), State())
      ensures Offered(old(State()), State())
      ensures if |old(queue)| < 1024 then queue == old(queue) + [old(phase).item] && !owed else queue == old(queue) && owed
    {
      hide Good, Backed, Probed, EventBuffer.Valid, EventBuffer.RingOf;
      if |queue| < DELIVERY_QUEUE_CAPACITY {
        GoodAfterSend(buf.RingOf(name), buf.epoch, name, q, suspendAfter, State());
        var item := phase.item;
        SettleFan(false);
        queue := queue + [item];
      } else {
        GoodAfterFail(buf.RingOf(name), buf.epoch, name, q, suspendAfter, State());
        SettleFan(true);
      }
    }

    /** The task was gone: recreate it once. */
    method FanReopen()
      requires Inv() && phase.Reopening?
      modifies this
      ensures Inv()
      ensures Calm(old(State()), State())
      ensures FanStepped(buf.RingOf(name), buf.epoch, name, 0, old(State()), State())
    {
      hide Good, Backed, Probed, EventBuffer.Valid, EventBuffer.RingOf;
      if alive && closing {
        return;
      }
      GoodAfterClosed(buf.RingOf(name), buf.epoch, name, q, suspendAfter, State());
      if !alive {
        SpawnTask();
      }
      phase := Resending(phase.item);
    }

    method FanResend()
      requires Inv() && phase.Resending?
      modifies this
      ensures Inv()
      ensures Calm(old(State()), State())
      ensures FanStepped(buf.RingOf(name), buf.epoch, name, 0, old(State()), State())
    {
      hide Good, Backed, Probed, EventBuffer.Valid, EventBuffer.RingOf;
      if !alive {
        GoodAfterFail(buf.RingOf(name), buf.epoch, name, q, suspendAfter, State());
        SettleFan(true);
      } else {
        TrySend();
      }
    }

    // ---- Interleaving ----

    /** Anything the other tasks can do while this one is not in a locked section. */
    method OtherStep()
      requires Inv()
      modifies this, buf
      ensures Inv() && Evolves(old(buf.RingOf(name)), buf.RingOf(name))
      ensures Calm(old(State()), State())
    {
      hide Good, Backed, Probed, EventBuffer.Valid, EventBuffer.RingOf;
      var n: nat, cursor: Option<string>, age: Option<nat>, drop: bool := *, *, *, *;
      if
      case true =>
        ghost var r0 := buf.RingOf(name);
        buf.Interfere(n);
        GoodStable(r0, buf.RingOf(name), buf.epoch, name, q, suspendAfter, State());
        BackedGrows(r0, buf.RingOf(name), buf.epoch, name, posts, posts, acked, gapped);
        ProbedStable(r0, buf.RingOf(name), buf.epoch, q, probed, probes);
      case slot.Some? => Refresh();
      case true => SetVerified();
      case true => Remove(drop);
      case true => ProbeStart(cursor, age);
      case |probed| > 0 =>
        n := if n < |probed| then n else 0;
        PairedUp(buf.RingOf(name), buf.epoch, q, probed, probes);
        var _ := Subscribe(n);
      case !alive && cacheVerified => Spawn();
      case true => FanStep(n);
    }

    method Others(steps: nat)
      requires Inv()
      modifies this, buf
      ensures Inv() && Evolves(old(buf.RingOf(name)), buf.RingOf(name))
      ensures old(alive) ==> Rely(old(State()), State())
    {
      hide Good, Backed, Probed, Rely, EventBuffer.Valid, EventBuffer.RingOf;
      ghost var w0 := State();
      RelyReflexive(w0);
      for i := 0 to steps
        invariant Inv() && Evolves(old(buf.RingOf(name)), buf.RingOf(name))
        invariant old(alive) ==> alive && Rely(w0, State())
      {
        ghost var w1 := State();
        OtherStep();
        if old(alive) {
          RelyAlive(w1, State());
          RelyTransitive(w0, w1, State());
        }
      }
    }

    // ---- The delivery task ----

    /** Where the observation ends before a delivery does: it was given no time, or the record is suspended. */
    ghost predicate Held(budget: nat)
      reads this
    {
      budget == 0 || (slot.Some? && !slot.value.active)
    }

    /** Holds until the record is active again: true when a POST may start, false when the record is gone. */
    method AwaitActive(budget: nat) returns (go: Option<bool>)
      requires Inv() && alive
      modifies this, buf
      ensures Inv() && alive && Evolves(old(buf.RingOf(name)), buf.RingOf(name)) && Rely(old(State()), State())
      ensures go == Some(true) ==> slot.Some? && slot.value.active
      ensures (go == Some(false) ==> slot.None?) && (go.None? ==> Held(budget))
    {
      hide Good, Backed, Probed, Rely, EventBuffer.Valid, EventBuffer.RingOf;
      ghost var w0 := State();
      RelyReflexive(w0);
      for i := 0 to budget
        invariant Inv() && alive && Evolves(old(buf.RingOf(name)), buf.RingOf(name)) && Rely(w0, State())
        invariant i > 0 ==> Held(budget)
      {
        ghost var w1 := State();
        var others: nat := *;
        Others(others);
        RelyAlive(w1, State());
        RelyTransitive(w0, w1, State());
        if slot.None? {
          return Some(false);
        }
        if slot.value.active {
          return Some(true);
        }
      }
      go := None;
    }

    /** A POST's outcome enters the history and the store's record. */
    method MarkPost(ghost msg: Message, ok: bool, retryable: bool, ghost suspended: bool)
      requires Inv() && !suspended && MessageOk(buf.RingOf(name), buf.epoch, name, msg)
      requires suspendAfter > 0 ==> FailStreak(posts) < suspendAfter
      modifies this`slot, this`posts
      ensures Inv() && State() == PostMarked(old(State()), Post(msg, ok, retryable, suspended), suspendAfter)
    {
      hide Good, Backed, Probed, FailStreak, EventBuffer.Valid, EventBuffer.RingOf;
      ghost var r, x := buf.RingOf(name), Post(msg, ok, retryable, suspended);
      GoodAfterPost(r, buf.epoch, name, q, suspendAfter, State(), x);
      hide Era, Seed;
      PostsMore(posts, x);
      BackedGrows(r, r, buf.epoch, name, posts, posts + [x], acked, gapped);
      posts := posts + [x];
      Bookkeep(ok);
    }

    /** The store's record after a success or a failure. */
    method Bookkeep(ok: bool)
      modifies this`slot
      ensures slot == if old(slot).Some? then Some(SubAfter(old(slot).value, ok, suspendAfter)) else None
    {
      if slot.Some? {
        var sub := slot.value;
        if ok {
          sub := sub.(streak := 0);
        } else {
          sub := sub.(streak := sub.streak + 1);
          if suspendAfter > 0 && sub.streak >= suspendAfter && sub.active {
            sub := sub.(active := false);
          }
        }
        slot := Some(sub);
      }
    }

    /** One attempt: wait for the record to be active, then POST. */
    method Attempt(ghost msg: Message, budget: nat) returns (go: Option<bool>, ok: bool, retryable: bool)
      requires Inv() && alive && MessageOk(buf.RingOf(name), buf.epoch, name, msg)
      modifies this, buf
      ensures Inv() && Evolves(old(buf.RingOf(name)), buf.RingOf(name))
      ensures MessageOk(buf.RingOf(name), buf.epoch, name, msg)
      ensures TaskKept(old(State()), State())
      ensures PostsIn(posts) == PostsIn(old(posts)) + if go == Some(true) then [Post(msg, ok, retryable, false)] else []
      ensures old(posts) <= posts && Era(posts) == Era(old(posts))
      ensures go == Some(true) ==> Posted(old(posts), posts, Post(msg, ok, retryable, false))
      ensures (go == Some(false) ==> slot.None?) && (go.None? ==> Held(budget))
    {
      hide Good, Backed, Probed, Rely, TaskKept, PostsIn, Era, MessageOk, EventBuffer.Valid, EventBuffer.RingOf;
      ghost var w0, r0 := State(), buf.RingOf(name);
      ok, retryable := false, false;
      go := AwaitActive(budget);
      ghost var w1 := State();
      RelyIsKept(w0, w1);
      RelyPosts(w0, w1);
      MessageStable(r0, buf.RingOf(name), buf.epoch, name, msg);
      if go == Some(true) {
        ok, retryable := PostOnce(msg);
        KeptTransitive(w0, w1, State());
      }
    }

    /** POSTs while others run, and records the outcome. */
    method PostOnce(ghost msg: Message) returns (ok: bool, retryable: bool)
      requires Inv() && alive && slot.Some? && slot.value.active && MessageOk(buf.RingOf(name), buf.epoch, name, msg)
      modifies this, buf
      ensures Inv() && Evolves(old(buf.RingOf(name)), buf.RingOf(name))
      ensures MessageOk(buf.RingOf(name), buf.epoch, name, msg)
      ensures TaskKept(old(State()), State())
      ensures PostsIn(posts) == PostsIn(old(posts)) + [Post(msg, ok, retryable, false)] && Era(posts) == Era(old(posts))
      ensures Posted(old(posts), posts, Post(msg, ok, retryable, false))
    {
      hide Good, Backed, Probed, TaskKept, FailStreak, PostsIn, Era, MessageOk, PostMarked, EventBuffer.Valid, EventBuffer.RingOf;
      ghost var w0, r0 := State(), buf.RingOf(name);
      ghost var suspended := PostUnderWay();
      ghost var w1 := State();
      MessageStable(r0, buf.RingOf(name), buf.epoch, name, msg);
      ok, retryable := *, *;
      MarkPost(msg, ok, retryable, suspended);
      PostKeeps(w0, w1, Post(msg, ok, retryable, suspended), suspendAfter);
      OnePost(w1, Post(msg, ok, retryable, suspended), suspendAfter);
    }

    /** The POST itself: it started with the record active, and nobody else suspends it meanwhile. */
    method PostUnderWay() returns (ghost suspended: bool)
      requires Inv() && alive && slot.Some? && slot.value.active
      modifies this, buf
      ensures Inv() && alive && Evolves(old(buf.RingOf(name)), buf.RingOf(name)) && TaskKept(old(State()), State())
      ensures !suspended && old(posts) <= posts && PostsIn(posts) == PostsIn(old(posts)) && Era(posts) == Era(old(posts))
      ensures suspendAfter > 0 ==> FailStreak(posts) < suspendAfter
    {
      hide Good, Backed, Probed, Rely, TaskKept, FailStreak, PostsIn, Era, EventBuffer.Valid, EventBuffer.RingOf;
      ghost var w1 := State();
      ActiveBelow(buf.RingOf(name), buf.epoch, name, q, suspendAfter, w1);
      var others: nat := *;
      Others(others);
      ghost var w2 := State();
      StillActive(w1, w2);
      RelyIsKept(w1, w2);
      RelyPosts(w1, w2);
      suspended := slot.Some? && !slot.value.active;
      others := *;
      Others(others);
      RelyKeeps(w1, w2, State());
      RelyPosts(w2, State());
      RelyAlive(w2, State());
    }

    /** Delivers one message with the retry and suspension policy. `Some(true)`: acked or abandoned; `Some(false)`: the
        record is gone; `None`: still at it when the observation ends. At most four POSTs, none while suspended. */
    method Deliver(ghost msg: Message, budget: nat) returns (done: Option<bool>)
      requires Inv() && alive && MessageOk(buf.RingOf(name), buf.epoch, name, msg)
      modifies this, buf
      ensures Inv() && Evolves(old(buf.RingOf(name)), buf.RingOf(name))
      ensures TaskKept(old(State()), State())
      ensures Delivered(old(posts), posts, msg, done == Some(true))
      ensures old(posts) <= posts && Era(posts) == Era(old(posts))
      ensures done == Some(true) ==> Finished(old(posts), posts, TopicOf(msg))
      ensures (done == Some(false) ==> slot.None?) && (done.None? ==> Held(budget))
    {
      hide Good, Backed, Probed, TaskKept, PostsIn, Era, MessageOk, FailuresFor, Finished, EventBuffer.Valid, EventBuffer.RingOf;
      ghost var w0 := State();
      KeptReflexive(w0);
      var attempt := 0;
      ghost var tries: seq<Post> := [];
      while true
        invariant Inv() && Evolves(old(buf.RingOf(name)), buf.RingOf(name)) && TaskKept(w0, State())
        invariant MessageOk(buf.RingOf(name), buf.epoch, name, msg)
        invariant attempt <= MAX_RETRIES && PostsIn(posts) == PostsIn(old(posts)) + tries
        invariant |tries| == attempt && Tried(tries, msg, false)
        invariant Era(posts) == Era(old(posts))
        invariant old(posts) <= posts && FailuresFor(posts, TopicOf(msg)) >= FailuresFor(old(posts), TopicOf(msg)) + attempt
        decreases MAX_RETRIES - attempt
      {
        ghost var w1 := State();
        KeptAlive(w0, w1);
        var go, ok, retryable := Attempt(msg, budget);
        KeptTransitive(w0, w1, State());
        if go.None? {
          return None;
        }
        if !go.value {
          return Some(false);
        }
        tries := tries + [Post(msg, ok, retryable, false)];
        LastAttempt(w0.posts, w1.posts, posts, msg, ok, retryable, attempt);
        if ok || !retryable || attempt >= MAX_RETRIES {
          return Some(true);
        }
        attempt := attempt + 1;
      }
    }

    /** Advances the stored watermark to the task's position. */
    method UpdateCursor(cursor: string)
      requires Inv() && started && cursor == CursorStr(buf.epoch, at)
      modifies this`slot, this`mark
      ensures Inv() && State() == MarkedAt(old(State()), cursor)
    {
      hide Good, Backed, Probed, CursorStr, EventBuffer.Valid, EventBuffer.RingOf;
      GoodAfterMark(buf.RingOf(name), buf.epoch, name, q, suspendAfter, State());
      if slot.Some? {
        slot := Some(slot.value.(cursor := Some(cursor)));
        mark := at;
      }
    }

    method Exit()
      requires Inv()
      modifies this
      ensures Inv() && State() == Exited(old(State()))
    {
      hide Good, Backed, Probed, EventBuffer.Valid, EventBuffer.RingOf;
      GoodAfterExit(buf.RingOf(name), buf.epoch, name, q, suspendAfter, State());
      alive, closing, queue := false, false, [];
      ResetTask();
    }

    /** Runs the others before the next locked section of the task. */
    method Yield()
      requires Inv() && alive
      modifies this, buf
      ensures Inv() && Evolves(old(buf.RingOf(name)), buf.RingOf(name)) && TaskKept(old(State()), State())
      ensures PostsIn(posts) == PostsIn(old(posts))
    {
      hide Good, Backed, Probed, Rely, TaskKept, PostsIn, Era, FailStreak, EventBuffer.Valid, EventBuffer.RingOf;
      ghost var w0 := State();
      var others: nat := *;
      Others(others);
      RelyIsKept(w0, State());
      RelyPosts(w0, State());
    }

    /** One read of the buffer by the task, at its own position. */
    method TaskRead(pos: string, cap: nat) returns (read: ReadResult, ghost o: Outcome)
      requires Inv() && started && pos == CursorStr(buf.epoch, at)
      modifies buf
      ensures Inv() && Evolves(old(buf.RingOf(name)), buf.RingOf(name))
      ensures at <= buf.RingOf(name).Head()
      ensures Reads(buf.RingOf(name), buf.epoch, Some(CursorStr(buf.epoch, at)), None, Some(cap), q, o)
      ensures Renders(buf.RingOf(name), buf.epoch, name, o, read)
    {
      hide CursorStr, Reads, Renders, EventBuffer.Valid, EventBuffer.RingOf, Covers, Follows, Seed, Paced, Safe,
           FailStreak, ItemOk;
      ghost var r0 := buf.RingOf(name);
      var now: int := *;
      read, o := buf.Read(now, name, Some(pos), None, Some(cap), q);
      GoodStable(r0, buf.RingOf(name), buf.epoch, name, q, suspendAfter, State());
      BackedGrows(r0, buf.RingOf(name), buf.epoch, name, posts, posts, acked, gapped);
      ProbedStable(r0, buf.RingOf(name), buf.epoch, q, probed, probes);
    }

    /** What lies after the task's position is no longer all retained: deliver a gap envelope that carries the position
        where a read can go on, and move there. */
    method BackfillGap(pos: string, budget: nat) returns (done: Option<bool>, pos': string)
      requires Inv() && alive && started && !queueing && pos == CursorStr(buf.epoch, at)
      requires at < buf.RingOf(name).evicted
      modifies this, buf
      ensures Inv() && Evolves(old(buf.RingOf(name)), buf.RingOf(name)) && old(posts) <= posts
      ensures alive && started && !queueing && inHand == old(inHand)
      ensures done == Some(true) ==> pos' == CursorStr(buf.epoch, at) && Marked()
      ensures (done == Some(false) ==> slot.None?) && (done.None? ==> Held(budget))
      ensures done == Some(true) ==> old(at) < at
      ensures old(queue) <= queue && Orderly(q, old(posts), posts, old(at), if done == Some(true) then Some(at) else None)
    {
      hide Good, Backed, Probed, Rely, TaskKept, CursorStr, Reads, Renders, FailStreak, Era, EventBuffer.Valid,
           EventBuffer.RingOf, Held, Marked, Finished, Finally, MessageOk, PostsIn, Orderly;
      ghost var w0 := State();
      Yield();
      KeptFields(w0, State());
      ghost var w1 := State();
      var read;
      ghost var o;
      read, o := TaskRead(pos, 0);
      pos' := read.cursor;
      ReadAhead(buf.RingOf(name), buf.epoch, name, at, Some(0), q, o, read);
      done := Deliver(GapMessage(at, o.pos, pos'), budget);
      KeptFields(w1, State());
      DeliveredInOrder(q, w1.posts, posts, GapMessage(at, o.pos, pos'), done == Some(true),
                       at, if done == Some(true) then Some(o.pos) else None);
      SameSent(q, w0.posts, w1.posts, posts, posts, at, if done == Some(true) then Some(o.pos) else None);
      if done == Some(true) {
        FinishedIsFinal(w1.posts, posts, GapOver(at, o.pos));
        SettleGap(o.pos);
        ghost var p2 := posts;
        MoveTo(pos');
        SameSent(q, w0.posts, w0.posts, p2, posts, w0.at, Some(at));
      }
    }

    /** The stored watermark, if there is a record, is the task's position. */
    ghost predicate Marked()
      reads this
    {
      slot.Some? ==> slot.value.cursor == Some(CursorStr(buf.epoch, at))
    }

    /** Marks the task's new position in the store, after the others had a chance to run. */
    method MoveTo(cursor: string)
      requires Inv() && alive && started && cursor == CursorStr(buf.epoch, at)
      modifies this, buf
      ensures Inv() && Evolves(old(buf.RingOf(name)), buf.RingOf(name)) && old(posts) <= posts
      ensures alive && started && at == old(at) && queueing == old(queueing) && inHand == old(inHand) && Marked()
      ensures old(queue) <= queue && PostsIn(posts) == PostsIn(old(posts))
    {
      hide Good, Backed, Probed, Rely, TaskKept, PostsIn, CursorStr, FailStreak, EventBuffer.Valid, EventBuffer.RingOf;
      ghost var w0 := State();
      Yield();
      KeptFields(w0, State());
      UpdateCursor(cursor);
    }

    ghost method SettleGap(pos: nat)
      requires Inv() && alive && started && at <= pos <= buf.RingOf(name).Head()
      requires Finally(posts, GapOver(at, pos))
      modifies this`gapped, this`at
      ensures Inv() && State() == SettledGap(buf.RingOf(name), q, old(State()), pos)
    {
      hide Good, Backed, Probed, Settled, Finally, EventBuffer.Valid, EventBuffer.RingOf;
      GoodAfterGap(buf.RingOf(name), buf.epoch, name, q, suspendAfter, State(), pos);
      ghost var span := set s | at < s <= pos && buf.RingOf(name).Matching(q, s);
      forall s | s in span ensures Settled(posts, s) {
        GapSettles(posts, at, pos, s);
      }
      BackedWider(buf.RingOf(name), buf.epoch, name, posts, acked, gapped, acked, gapped + span);
      gapped := gapped + span;
      at := pos;
    }

    ghost method SettleEvent(s: nat, pos: nat, delivered: bool)
      requires Inv() && alive && started && at <= pos <= buf.RingOf(name).Head() && s <= pos
      requires forall t :: Max(at, seed) < t <= pos && buf.RingOf(name).Matching(q, t) ==> delivered && t == s
      requires delivered ==> Finally(posts, OfEvent(s))
      modifies this`acked, this`at
      ensures Inv()
      ensures State() == if delivered then SettledEvent(old(State()), s, pos) else old(State()).(at := pos)
    {
      hide Good, Backed, Probed, Finally, EventBuffer.Valid, EventBuffer.RingOf;
      GoodAfterEvent(buf.RingOf(name), buf.epoch, name, q, suspendAfter, State(), s, pos);
      if delivered {
        BackedWider(buf.RingOf(name), buf.epoch, name, posts, acked, gapped, acked + {s}, gapped);
        acked := acked + {s};
      }
      at := pos;
    }

    /** A retained event above the watermark: deliver it, then advance past it. */
    method BackfillEvent(read: ReadResult, ghost o: Outcome, ghost r: Ring, budget: nat) returns (done: Option<bool>)
      requires Inv() && alive && started && !queueing && Evolves(r, buf.RingOf(name)) && |o.picked| == 1
      requires at <= o.pos <= r.Head() && read.cursor == CursorStr(buf.epoch, o.pos)
      requires forall t :: at < t <= o.pos && r.Matching(q, t) ==> t == o.picked[0]
      requires |read.events| == 1 && r.Has(o.picked[0]) && at < o.picked[0] <= o.pos && q.Matches(read.events[0].data)
      requires read.events[0] == OccurrenceOf(r, name, o.picked[0])
      modifies this, buf
      ensures Inv() && Evolves(old(buf.RingOf(name)), buf.RingOf(name)) && old(posts) <= posts
      ensures alive && started && !queueing && inHand == old(inHand)
      ensures done == Some(true) ==> read.cursor == CursorStr(buf.epoch, at) && Marked()
      ensures (done == Some(false) ==> slot.None?) && (done.None? ==> Held(budget))
      ensures done == Some(true) ==> at == o.pos
      ensures old(queue) <= queue && Orderly(q, old(posts), posts, old(at), if done == Some(true) then Some(at) else None)
    {
      hide Good, Backed, Probed, Rely, TaskKept, CursorStr, FailStreak, EventBuffer.Valid, EventBuffer.RingOf, Held,
           Marked, Finished, PostsIn, Orderly;
      ghost var w0 := State();
      ghost var r0 := buf.RingOf(name);
      var occ := read.events[0].(cursor := Some(read.cursor));
      ghost var msg := EventMessage(o.picked[0], o.pos, occ);
      MessageStable(r, r0, buf.epoch, name, msg);
      done := Deliver(msg, budget);
      KeptFields(w0, State());
      DeliveredInOrder(q, w0.posts, posts, msg, done == Some(true), at, if done == Some(true) then Some(o.pos) else None);
      if done == Some(true) {
        FinishedIsFinal(w0.posts, posts, OfEvent(o.picked[0]));
        ghost var r1 := buf.RingOf(name);
        OnlyOneMatches(r, r0, r1, q, at, o.pos, o.picked[0]);
        SettleEvent(o.picked[0], o.pos, true);
        ghost var p2 := posts;
        MoveTo(read.cursor);
        SameSent(q, w0.posts, w0.posts, p2, posts, w0.at, Some(at));
      }
    }

    /** Nothing left to deliver: the watermark may still move past filtered events, to the head. */
    method BackfillEnd(pos: string, read: ReadResult, ghost o: Outcome) returns (pos': string)
      requires Inv() && alive && started && !queueing && pos == CursorStr(buf.epoch, at)
      requires at <= o.pos == buf.RingOf(name).Head() && read.cursor == CursorStr(buf.epoch, o.pos)
      requires forall t :: at < t <= o.pos ==> !buf.RingOf(name).Matching(q, t)
      modifies this, buf
      ensures Inv() && Evolves(old(buf.RingOf(name)), buf.RingOf(name)) && old(posts) <= posts
      ensures alive && started && queueing && inHand == old(inHand) && at == o.pos && pos' == CursorStr(buf.epoch, at)
      ensures pos' != pos ==> Marked()
      ensures old(queue) <= queue && PostsIn(posts) == PostsIn(old(posts))
    {
      hide Good, Backed, Probed, CursorStr, PostsIn, EventBuffer.Valid, EventBuffer.RingOf;
      SettleEvent(0, o.pos, false);
      GoodAfterBackfill(buf.RingOf(name), buf.epoch, name, q, suspendAfter, State());
      queueing, missed := true, false;
      pos' := read.cursor;
      if read.cursor != pos {
        MoveTo(read.cursor);
      }
    }

    /** Backfill: replay retained events one at a time from the stored watermark, until the head is reached. */
    method Backfill(start: string, budget: nat) returns (done: Option<bool>, pos: string)
      requires Inv() && alive && started && !queueing && inHand.None? && start == CursorStr(buf.epoch, at)
      modifies this, buf
      ensures Inv() && Evolves(old(buf.RingOf(name)), buf.RingOf(name)) && old(posts) <= posts
      ensures alive && started && inHand.None? && old(queue) <= queue
      ensures done == Some(true) ==> queueing && pos == CursorStr(buf.epoch, at) && old(at) <= at
      ensures done == Some(false) ==> slot.None?
      ensures Orderly(q, old(posts), posts, old(at), if done == Some(true) then Some(at) else None)
      ensures done.None? ==> !queueing && (Held(budget) || at >= old(at) + budget)
    {
      hide Good, Backed, Probed, CursorStr, Held, PostsIn, Orderly, EventBuffer.Valid, EventBuffer.RingOf;
      pos := start;
      ghost var p0, at0 := posts, at;
      NothingSent(q, p0, p0, at0, Some(at0));
      for i := 0 to budget
        invariant Inv() && Evolves(old(buf.RingOf(name)), buf.RingOf(name)) && old(posts) <= posts
        invariant alive && started && !queueing && inHand.None? && pos == CursorStr(buf.epoch, at)
        invariant at >= old(at) + i && old(queue) <= queue && Orderly(q, p0, posts, at0, Some(at))
      {
        ghost var p1, at1 := posts, at;
        done, pos := BackfillOne(pos, budget);
        OrderlyThen(q, p0, p1, posts, at0, at1, if done == Some(true) then Some(at) else None);
        if done != Some(true) || queueing {
          return;
        }
      }
      done := None;
      OrderlyWider(q, p0, posts, at0, Some(at), at0);
    }

    /** One turn of the loop: past a gap, past an event, or to the end, where the queue takes over. */
    method BackfillOne(pos: string, budget: nat) returns (done: Option<bool>, pos': string)
      requires Inv() && alive && started && !queueing && inHand.None? && pos == CursorStr(buf.epoch, at)
      modifies this, buf
      ensures Inv() && Evolves(old(buf.RingOf(name)), buf.RingOf(name)) && old(posts) <= posts
      ensures alive && started && inHand.None? && old(queue) <= queue
      ensures Orderly(q, old(posts), posts, old(at), if done == Some(true) then Some(at) else None)
      ensures done == Some(true) ==> pos' == CursorStr(buf.epoch, at) && old(at) <= at && (queueing || at > old(at))
      ensures done != Some(true) ==> !queueing
      ensures (done == Some(false) ==> slot.None?) && (done.None? ==> Held(budget))
    {
      hide Good, Backed, Probed, Rely, TaskKept, CursorStr, Reads, Renders, Held, Marked, PostsIn, Orderly,
           Delivered, EventBuffer.Valid, EventBuffer.RingOf;
      ghost var w0 := State();
      Yield();
      KeptFields(w0, State());
      ghost var p1 := posts;
      var read;
      ghost var o;
      read, o := TaskRead(pos, 1);
      ghost var r := buf.RingOf(name);
      ReadAhead(r, buf.epoch, name, at, Some(1), q, o, read);
      if read.truncated {
        done, pos' := BackfillGap(pos, budget);
        SameSent(q, w0.posts, p1, posts, posts, w0.at, if done == Some(true) then Some(at) else None);
      } else if |read.events| > 0 {
        OneMatches(r, q, at, o);
        done := BackfillEvent(read, o, r, budget);
        SameSent(q, w0.posts, p1, posts, posts, w0.at, if done == Some(true) then Some(at) else None);
        pos' := read.cursor;
      } else {
        pos' := BackfillEnd(pos, read, o);
        done := Some(true);
        NothingSent(q, w0.posts, posts, w0.at, Some(at));
      }
    }

    /** An event or gap from the queue, beyond what is already covered: deliver it, then advance to it. */
    method HandleItem(item: Item, budget: nat) returns (done: Option<bool>)
      requires Inv() && alive && started && queueing && handling && inHand == Some(item) && at < item.seqNo
      requires ItemOk(buf.RingOf(name), buf.epoch, name, item)
      modifies this, buf
      ensures Inv() && Evolves(old(buf.RingOf(name)), buf.RingOf(name)) && old(posts) <= posts
      ensures alive && started && queueing && inHand == Some(item)
      ensures done == Some(true) ==> at == item.seqNo && Marked()
      ensures (done == Some(false) ==> slot.None?) && (done.None? ==> Held(budget))
      ensures old(queue) <= queue && old(at) <= at
      ensures Orderly(q, old(posts), posts, old(at), if done == Some(true) then Some(at) else None)
    {
      hide Good, Backed, Probed, CursorStr, ItemOk, EventBuffer.Valid, EventBuffer.RingOf, Held, Orderly, PostsIn;
      match item {
        case EventItem(_, _) => done := HandleEvent(item, budget);
        case GapItem(_, _) => done := HandleGap(item, budget);
      }
    }

    method HandleGap(item: Item, budget: nat) returns (done: Option<bool>)
      requires Inv() && alive && started && queueing && inHand == Some(item) && item.GapItem? && at < item.seqNo
      requires ItemOk(buf.RingOf(name), buf.epoch, name, item)
      modifies this, buf
      ensures Inv() && Evolves(old(buf.RingOf(name)), buf.RingOf(name)) && old(posts) <= posts
      ensures alive && started && queueing && inHand == Some(item)
      ensures done == Some(true) ==> at == item.seqNo && Marked()
      ensures (done == Some(false) ==> slot.None?) && (done.None? ==> Held(budget))
      ensures old(queue) <= queue && old(at) <= at
      ensures Orderly(q, old(posts), posts, old(at), if done == Some(true) then Some(at) else None)
    {
      hide Good, Backed, Probed, Rely, TaskKept, CursorStr, FailStreak, Era, ItemOk, EventBuffer.Valid,
           EventBuffer.RingOf, Held, Marked, Finished, Finally, MessageOk, PostsIn, Orderly;
      ghost var w0 := State();
      ItemFacts(buf.RingOf(name), buf.epoch, name, item, at);
      done := Deliver(GapMessage(at, item.seqNo, item.cursor), budget);
      KeptFields(w0, State());
      DeliveredInOrder(q, w0.posts, posts, GapMessage(at, item.seqNo, item.cursor), done == Some(true),
                       at, if done == Some(true) then Some(item.seqNo) else None);
      if done == Some(true) {
        FinishedIsFinal(w0.posts, posts, GapOver(at, item.seqNo));
        SettleGap(item.seqNo);
        ghost var p2 := posts;
        MoveTo(item.cursor);
        SameSent(q, w0.posts, w0.posts, p2, posts, w0.at, Some(at));
      }
    }

    method HandleEvent(item: Item, budget: nat) returns (done: Option<bool>)
      requires Inv() && alive && started && queueing && handling && inHand == Some(item) && item.EventItem? && at < item.seqNo
      requires ItemOk(buf.RingOf(name), buf.epoch, name, item)
      modifies this, buf
      ensures Inv() && Evolves(old(buf.RingOf(name)), buf.RingOf(name)) && old(posts) <= posts
      ensures alive && started && queueing && inHand == Some(item)
      ensures done == Some(true) ==> at == item.seqNo && Marked()
      ensures (done == Some(false) ==> slot.None?) && (done.None? ==> Held(budget))
      ensures old(queue) <= queue && old(at) <= at
      ensures Orderly(q, old(posts), posts, old(at), if done == Some(true) then Some(at) else None)
    {
      hide Good, Backed, Probed, Rely, TaskKept, CursorStr, FailStreak, Era, Finally, ItemOk, EventBuffer.Valid,
           EventBuffer.RingOf, Held, Marked, MessageOk, PostsIn, Orderly;
      ghost var w0 := State();
      ghost var r0 := buf.RingOf(name);
      var seqNo, occ := item.seqNo, item.occ;
      var cursor;
      if occ.cursor.Some? {
        cursor := occ.cursor.value;
      } else {
        cursor := buf.CurrentCursor(name);
      }
      var filteredOut := if q.params.Some? && q.filter.Some? then !q.filter.value(q.params.value, occ.data) else false;
      ItemFacts(r0, buf.epoch, name, item, at);
      done := SendUnless(filteredOut, EventMessage(seqNo, seqNo, occ.(cursor := Some(cursor))), at, budget);
      KeptFields(w0, State());
      if done == Some(true) {
        ghost var p2 := posts;
        PassEvent(item, cursor, filteredOut, r0);
        SameSent(q, w0.posts, w0.posts, p2, posts, w0.at, Some(at));
      }
    }

    /** An event that was delivered or filtered out: the task and the stored watermark move past it. */
    method PassEvent(item: Item, cursor: string, ghost filteredOut: bool, ghost r0: Ring)
      requires Inv() && alive && started && queueing && handling && inHand == Some(item) && item.EventItem? && at < item.seqNo
      requires Evolves(r0, buf.RingOf(name)) && r0.Has(item.seqNo) && item.seqNo <= buf.RingOf(name).Head()
      requires filteredOut <==> !q.Matches(r0.At(item.seqNo).data)
      requires !filteredOut ==> Finally(posts, OfEvent(item.seqNo))
      requires cursor == CursorStr(buf.epoch, item.seqNo)
      modifies this, buf
      ensures Inv() && Evolves(old(buf.RingOf(name)), buf.RingOf(name)) && old(posts) <= posts
      ensures alive && started && queueing && inHand == Some(item) && at == item.seqNo && Marked()
      ensures old(queue) <= queue && PostsIn(posts) == PostsIn(old(posts))
    {
      hide Good, Backed, Probed, Rely, TaskKept, CursorStr, FailStreak, Era, Finally, ItemOk, EventBuffer.Valid,
           EventBuffer.RingOf, Marked, PostsIn;
      ItemFollows(buf.RingOf(name), buf.epoch, name, q, suspendAfter, State());
      NextOnly(r0, buf.RingOf(name), q, Max(at, seed), item.seqNo, filteredOut);
      SettleEvent(item.seqNo, item.seqNo, !filteredOut);
      MoveTo(cursor);
    }

    /** Delivers the message, unless the filter took it out. */
    method SendUnless(filteredOut: bool, ghost msg: Message, ghost lo: nat, budget: nat) returns (done: Option<bool>)
      requires Inv() && alive && MessageOk(buf.RingOf(name), buf.epoch, name, msg)
      requires msg.EventMessage? && lo < First(msg) <= Last(msg) && (!filteredOut ==> q.Matches(msg.occ.data))
      modifies this, buf
      ensures Inv() && Evolves(old(buf.RingOf(name)), buf.RingOf(name)) && TaskKept(old(State()), State())
      ensures filteredOut ==> done == Some(true) && State() == old(State())
      ensures !filteredOut && done == Some(true) ==>
        Finished(old(posts), posts, TopicOf(msg)) && Finally(posts, TopicOf(msg))
      ensures Orderly(q, old(posts), posts, lo, if done == Some(true) then Some(Last(msg)) else None)
      ensures (done == Some(false) ==> slot.None?) && (done.None? ==> Held(budget))
    {
      hide Good, Backed, Probed, Rely, TaskKept, Finished, MessageOk, FailStreak, Era, Finally, EventBuffer.Valid,
           EventBuffer.RingOf, Held, PostsIn, Orderly, Delivered;
      ghost var w0 := State();
      KeptReflexive(w0);
      if filteredOut {
        NothingSent(q, posts, posts, lo, Some(Last(msg)));
        return Some(true);
      }
      done := Deliver(msg, budget);
      DeliveredInOrder(q, w0.posts, posts, msg, done == Some(true), lo, if done == Some(true) then Some(Last(msg)) else None);
      if done == Some(true) {
        FinishedIsFinal(w0.posts, posts, TopicOf(msg));
      }
    }

    method FinishItem()
      requires Inv() && alive && started && queueing && inHand.Some? && inHand.value.seqNo <= at
      modifies this`inHand, this`handling
      ensures Inv() && State() == DoneWith(old(State()))
    {
      hide Good, Backed, Probed, EventBuffer.Valid, EventBuffer.RingOf;
      GoodAfterItem(buf.RingOf(name), buf.epoch, name, q, suspendAfter, State());
      inHand, handling := None, false;
    }

    /** Takes the next item off the queue. */
    method Pop() returns (item: Item)
      requires Inv() && alive && queueing && inHand.None? && queue != []
      modifies this`inHand, this`handling, this`queue
      ensures Inv() && State() == Popped(old(State())) && inHand == Some(item)
    {
      hide Good, Backed, Probed, EventBuffer.Valid, EventBuffer.RingOf;
      GoodAfterPop(buf.RingOf(name), buf.epoch, name, q, suspendAfter, State());
      item := queue[0];
      inHand, handling := Some(item), false;
      queue := queue[1..];
    }

    /** The task is past the first `n` of these items. */
    ghost predicate DoneWithFirst(items: seq<Item>, n: nat)
      reads this
    {
      forall j :: 0 <= j < n && j < |items| ==> items[j].seqNo <= at
    }

    /** The queue loop: deliver in order what lies beyond the backfill. */
    method Drain(pos: string, budget: nat) returns (gone: bool)
      requires Inv() && alive && started && queueing && inHand.None? && pos == CursorStr(buf.epoch, at)
      modifies this, buf
      ensures Inv() && Evolves(old(buf.RingOf(name)), buf.RingOf(name)) && old(posts) <= posts
      ensures alive && started && queueing && Orderly(q, old(posts), posts, old(at), None)
      ensures if gone then slot.None? || (closing && queue == []) else Held(budget) || DoneWithFirst(old(queue), budget)
    {
      hide Good, Backed, Probed, CursorStr, ParseSeq, SeqOf, EventBuffer.Valid, EventBuffer.RingOf, Held, PostsIn, Orderly;
      ghost var k, p0, at0 := 0, posts, at;
      NothingSent(q, p0, p0, at0, Some(at0));
      AtParses(buf.RingOf(name), buf.epoch, name, q, suspendAfter, State());
      var lastDone := match ParseSeq(pos) case Some(s) => s case None => 0;
      for i := 0 to budget
        invariant Inv() && Evolves(old(buf.RingOf(name)), buf.RingOf(name)) && old(posts) <= posts
        invariant alive && started && queueing && inHand.None? && lastDone == at && at0 <= at
        invariant Orderly(q, p0, posts, at0, Some(at))
        invariant k <= |old(queue)| && (k < i ==> k == |old(queue)|) && old(queue)[k..] <= queue
        invariant forall j :: 0 <= j < k ==> old(queue)[j].seqNo <= at
      {
        var go;
        ghost var before, p1, at1 := queue, posts, at;
        go, lastDone := DrainOne(lastDone, budget);
        OrderlyThen(q, p0, p1, posts, at0, at1, if go == Some(true) then Some(at) else None);
        if k < |old(queue)| && go == Some(true) {
          assert before[0] == old(queue)[k..][0] == old(queue)[k];
          assert old(queue)[k + 1..] <= before[1..];
          k := k + 1;
        }
        if go.None? {
          return false;
        }
        if !go.value {
          return true;
        }
      }
      gone := false;
      OrderlyWider(q, p0, posts, at0, Some(at), at0);
    }

    /** One turn of the loop. `Some(true)`: go on; `Some(false)`: the task ends; `None`: the observation ends first. */
    method DrainOne(lastDone: nat, budget: nat) returns (go: Option<bool>, lastDone': nat)
      requires Inv() && alive && started && queueing && inHand.None? && lastDone == at
      modifies this, buf
      ensures Inv() && Evolves(old(buf.RingOf(name)), buf.RingOf(name)) && old(posts) <= posts
      ensures alive && started && queueing && old(at) <= at
      ensures go == Some(true) ==> inHand.None? && lastDone' == at
      ensures Orderly(q, old(posts), posts, old(at), if go == Some(true) then Some(at) else None)
      ensures (go == Some(false) ==> slot.None? || (closing && queue == [])) && (go.None? ==> Held(budget))
      ensures go == Some(true) && old(queue) != [] ==> old(queue)[1..] <= queue && at >= old(queue)[0].seqNo
    {
      hide Good, Backed, Probed, Rely, TaskKept, CursorStr, ItemOk, FailStreak, Held, PostsIn, Orderly,
           EventBuffer.Valid, EventBuffer.RingOf;
      ghost var w0 := State();
      lastDone' := lastDone;
      Yield();
      KeptFields(w0, State());
      ghost var p1 := posts;
      if queue == [] {
        NothingSent(q, w0.posts, posts, at, if closing then None else Some(at));
        return Some(!closing), lastDone;
      }
      var item := Pop();
      go, lastDone' := Work(item, lastDone, budget);
      SameSent(q, w0.posts, p1, posts, posts, w0.at, if go == Some(true) then Some(at) else None);
    }

    /** What the loop does with an item it took: nothing, when the record is gone or the item is already covered. */
    method Work(item: Item, lastDone: nat, budget: nat) returns (go: Option<bool>, lastDone': nat)
      requires Inv() && alive && started && queueing && inHand == Some(item) && lastDone == at
      modifies this, buf
      ensures Inv() && Evolves(old(buf.RingOf(name)), buf.RingOf(name)) && old(posts) <= posts
      ensures alive && started && queueing && old(at) <= at && old(queue) <= queue
      ensures go == Some(true) ==> inHand.None? && lastDone' == at >= item.seqNo
      ensures Orderly(q, old(posts), posts, old(at), if go == Some(true) then Some(at) else None)
      ensures (go == Some(false) ==> slot.None?) && (go.None? ==> Held(budget))
    {
      hide Good, Backed, Probed, Rely, TaskKept, CursorStr, ItemOk, FailStreak, Held, PostsIn, Orderly,
           EventBuffer.Valid, EventBuffer.RingOf;
      ghost var w1 := State();
      lastDone' := lastDone;
      Yield();
      KeptFields(w1, State());
      ghost var p1 := posts;
      if slot.None? {
        NothingSent(q, w1.posts, p1, at, None);
        return Some(false), lastDone;
      }
      Take();
      if item.seqNo > lastDone {
        go := HandleItem(item, budget);
        SameSent(q, w1.posts, p1, posts, posts, w1.at, if go == Some(true) then Some(at) else None);
        if go != Some(true) {
          return;
        }
        lastDone' := item.seqNo;
      } else {
        NothingSent(q, w1.posts, p1, at, Some(at));
      }
      FinishItem();
      go := Some(true);
    }

    /** With the record there, the item in hand can be handled. */
    ghost method Take()
      requires Inv() && queueing && inHand.Some? && slot.Some?
      modifies this`handling
      ensures Inv() && State() == old(State()).(handling := true)
      ensures ItemOk(buf.RingOf(name), buf.epoch, name, inHand.value)
    {
      hide Good, Backed, Probed, ItemOk, EventBuffer.Valid, EventBuffer.RingOf;
      GoodAfterTaking(buf.RingOf(name), buf.epoch, name, q, suspendAfter, State());
      handling := true;
    }

    /** One delivery task: start from the stored watermark, backfill, then drain the queue. It ends when the record is
        gone, or when its sender was dropped and the queue is empty; until then it gets through its backlog. Every state in
        between satisfies the invariant, so the observation may end anywhere. */
    method RunDelivery(budget: nat) returns (end: End)
      requires Inv() && alive && !started && !queueing && inHand.None?
      modifies this, buf
      ensures Inv() && Evolves(old(buf.RingOf(name)), buf.RingOf(name)) && old(posts) <= posts
      ensures Orderly(q, old(posts), posts, 0, None)
      ensures alive == end.Unfinished? && (end.Vanished? ==> slot.None?)
      ensures end.Unfinished? && !Held(budget) ==>
        started && (if queueing then DoneWithFirst(old(queue), budget) else at >= budget)
    {
      hide Good, Backed, Probed, Rely, TaskKept, CursorStr, EventBuffer.Valid, EventBuffer.RingOf, Held, PostsIn, Orderly;
      ghost var w0 := State();
      Yield();
      KeptFields(w0, State());
      if slot.None? {
        NothingSent(q, w0.posts, posts, 0, None);
        Exit();
        return Vanished;
      }
      var pos := Start();
      var done;
      ghost var p1, at1 := posts, at;
      done, pos := Backfill(pos, budget);
      SameSent(q, w0.posts, p1, posts, posts, at1, if done == Some(true) then Some(at) else None);
      OrderlyWider(q, w0.posts, posts, at1, if done == Some(true) then Some(at) else None, 0);
      if done.None? {
        return Unfinished;
      }
      if !done.value {
        Exit();
        return Vanished;
      }
      ghost var backlog, p2, at2 := queue, posts, at;
      var gone := Drain(pos, budget);
      OrderlyThen(q, w0.posts, p2, posts, at1, at2, None);
      OrderlyWider(q, w0.posts, posts, at1, None, 0);
      if gone {
        end := if slot.None? then Vanished else Dropped;
        Exit();
        return;
      }
      assert forall j :: 0 <= j < |old(queue)| ==> old(queue)[j] == backlog[j];
      end := Unfinished;
    }

    /** Reads the start position from the record; a record without one starts from the head. */
    method Start() returns (pos: string)
      requires Inv() && alive && !started && slot.Some?
      modifies this`started, this`at, this`seed, this`acked, this`gapped, this`posts
      ensures Inv() && alive && started && queueing == old(queueing) && inHand == old(inHand) && old(posts) <= posts
      ensures pos == CursorStr(buf.epoch, at) && (slot.value.cursor.Some? ==> slot.value.cursor.value == pos)
      ensures old(queue) <= queue && PostsIn(posts) == PostsIn(old(posts))
    {
      hide Good, Backed, Probed, CursorStr, SeqOf, ParseSeq, PostsIn, Seed, Era, EventBuffer.Valid, EventBuffer.RingOf;
      ghost var r := buf.RingOf(name);
      if slot.value.cursor.Some? {
        StoredPosition(r, buf.epoch, name, q, suspendAfter, State());
        pos := slot.value.cursor.value;
        GoodAfterStart(r, buf.epoch, name, q, suspendAfter, State(), mark);
        BackedWider(r, buf.epoch, name, posts, acked, gapped, UpTo(acked, mark), UpTo(gapped, mark));
        CloseBooksAfter(mark);
      } else {
        pos := buf.CurrentCursor(name);
        CursorRoundTrip(buf.epoch, r.Head());
        GoodAfterStart(r, buf.epoch, name, q, suspendAfter, State(), r.Head());
        OneMoreSent(posts, Began(SeqOf(pos)));
        Begin(SeqOf(pos));
      }
      started := true;
    }

    ghost method CloseBooksAfter(pos: nat)
      modifies this`at, this`acked, this`gapped
      ensures State() == old(State()).(at := pos, acked := UpTo(old(acked), pos), gapped := UpTo(old(gapped), pos))
    {
      at, acked, gapped := pos, UpTo(acked, pos), UpTo(gapped, pos);
    }

    method Begin(pos: nat)
      requires Inv() && pos == buf.RingOf(name).Head()
      modifies this`at, this`seed, this`acked, this`gapped, this`posts
      ensures State() == old(State()).(at := pos, seed := pos, acked := UpTo(old(acked), pos), gapped := UpTo(old(gapped), pos),
                                       posts := old(posts) + [Began(pos)])
      ensures Backed(buf.RingOf(name), buf.epoch, name, posts, acked, gapped)
    {
      hide Good, Backed, Probed, CursorStr, Seed, Era, EventBuffer.Valid, EventBuffer.RingOf;
      ghost var r := buf.RingOf(name);
      PostsMore(posts, Began(pos));
      BackedWider(r, buf.epoch, name, posts, acked, gapped, UpTo(acked, pos), UpTo(gapped, pos));
      BackedGrows(r, r, buf.epoch, name, posts, posts + [Began(pos)], UpTo(acked, pos), UpTo(gapped, pos));
      CloseBooksAfter(pos);
      posts := posts + [Began(pos)];
      seed := pos;
    }

    /** The pipeline over any run: subscriptions come and go, tasks start and end, all others interleave. In every
        state reached, the stored watermark is safe and POSTs keep to the suspension and retry policy. */
    method RunWorker(rounds: nat)
      requires Inv() && !alive
      modifies this, buf
      ensures Inv() && Evolves(old(buf.RingOf(name)), buf.RingOf(name)) && old(posts) <= posts
      ensures WatermarkDelivered(buf.RingOf(name), buf.epoch, q, slot, mark, posts)
      ensures Paced(suspendAfter, posts)
    {
      hide Good, Backed, Probed, Rely, TaskKept, CursorStr, EventBuffer.Valid, EventBuffer.RingOf;
      for i := 0 to rounds
        invariant Inv() && Evolves(old(buf.RingOf(name)), buf.RingOf(name)) && old(posts) <= posts
        invariant !alive
      {
        var budget: nat := *;
        WatermarkIsSafe(buf.RingOf(name), buf.epoch, name, q, suspendAfter, State());
        OtherStep();
        if alive {
          var _ := RunDelivery(budget);
          if alive {
            break;
          }
        }
      }
      WatermarkIsSafe(buf.RingOf(name), buf.epoch, name, q, suspendAfter, State());
      WatermarkIsDelivered(buf.RingOf(name), buf.epoch, name, q, suspendAfter, State());
    }
  }

  lemma NothingBacked(r: Ring, epoch: nat, name: string)
    ensures Backed(r, epoch, name, [], {}, {})
  {
  }

  lemma MessageStable(r: Ring, r': Ring, epoch: nat, name: string, m: Message)
    requires Evolves(r, r') && MessageOk(r, epoch, name, m)
    ensures MessageOk(r', epoch, name, m)
  {
  }

  /** An attempt that was acked, is not to be retried, or was the last finishes the message; any failure counts. */
  lemma LastAttempt(before: seq<Post>, between: seq<Post>, posts: seq<Post>, msg: Message, ok: bool, retryable: bool, attempt: nat)
    requires before <= between && Posted(between, posts, Post(msg, ok, retryable, false))
    requires FailuresFor(between, TopicOf(msg)) >= FailuresFor(before, TopicOf(msg)) + attempt
    ensures ok || !retryable || attempt >= MAX_RETRIES ==> Finished(before, posts, TopicOf(msg))
    ensures !ok ==> FailuresFor(posts, TopicOf(msg)) >= FailuresFor(before, TopicOf(msg)) + attempt + 1
  {
    FailuresGrow(between, posts[..|posts| - 1], TopicOf(msg));
    assert |before| <= |posts| - 1 < |posts|;
  }

  lemma CalmReflexive(w: World)
    ensures Calm(w, w)
  {
  }

  lemma PhaseIsCalm(w: World, phase: FanPhase)
    ensures Calm(w, w.(phase := phase))
  {
  }

  lemma CreateIsCalm(w: World, cursor: string, start: nat)
    ensures Calm(w, if w.alive then CreatedOver(w, cursor, start) else Created(w, Some(cursor), start))
  {
  }

  lemma GoodAtStart(r: Ring, epoch: nat, name: string, q: Query, suspendAfter: nat, w: World)
    requires w == World(None, false, false, false, [], w.rx, Idle, false, w.rx, false, false, false, 0, None, false, 0, 0, {}, {}, [])
    requires w.rx <= r.Head()
    ensures Good(r, epoch, name, q, suspendAfter, w)
  {
  }

  lemma AtParses(r: Ring, epoch: nat, name: string, q: Query, suspendAfter: nat, w: World)
    requires r.Valid() && epoch < U64_LIMIT && Good(r, epoch, name, q, suspendAfter, w) && w.started
    ensures ParseSeq(CursorStr(epoch, w.at)) == Some(w.at)
  {
    CursorRoundTrip(epoch, w.at);
  }

  lemma StoredPosition(r: Ring, epoch: nat, name: string, q: Query, suspendAfter: nat, w: World)
    requires Good(r, epoch, name, q, suspendAfter, w) && w.slot.Some? && w.slot.value.cursor.Some?
    ensures w.slot.value.cursor.value == CursorStr(epoch, w.mark)
  {
  }

  lemma OneMatches(r: Ring, q: Query, at: nat, o: Outcome)
    requires |o.picked| == 1 && forall t :: at < t <= o.pos && r.Matching(q, t) ==> t in o.picked
    ensures forall t :: at < t <= o.pos && r.Matching(q, t) ==> t == o.picked[0]
  {
  }

  lemma ItemFacts(r: Ring, epoch: nat, name: string, x: Item, at: nat)
    requires ItemOk(r, epoch, name, x) && at < x.seqNo
    ensures x.seqNo <= r.Head()
    ensures x.EventItem? ==> r.Has(x.seqNo) && x.occ.data == r.At(x.seqNo).data
    ensures x.EventItem? ==> x.occ.cursor == Some(CursorStr(epoch, x.seqNo))
    ensures x.EventItem? ==> MessageOk(r, epoch, name, EventMessage(x.seqNo, x.seqNo, x.occ))
    ensures x.GapItem? ==> x.cursor == CursorStr(epoch, x.seqNo) && MessageOk(r, epoch, name, GapMessage(at, x.seqNo, x.cursor))
  {
  }

  lemma NextOnly(r: Ring, r': Ring, q: Query, c: nat, s: nat, filteredOut: bool)
    requires Evolves(r, r') && r.Has(s) && NoneBetween(r', q, c, s)
    requires filteredOut <==> !q.Matches(r.At(s).data)
    ensures forall t :: c < t <= s && r'.Matching(q, t) ==> !filteredOut && t == s
  {
  }

  lemma OnlyOneMatches(r: Ring, r0: Ring, r1: Ring, q: Query, lo: nat, hi: nat, s: nat)
    requires Evolves(r, r0) && Evolves(r0, r1) && hi <= r.Head()
    requires forall t :: lo < t <= hi && r.Matching(q, t) ==> t == s
    ensures forall t :: lo < t <= hi && r1.Matching(q, t) ==> t == s
  {
    forall t | lo < t <= hi && r1.Matching(q, t) ensures t == s {
      assert r.Matching(q, t);
    }
  }

  lemma KeptFields(w: World, w': World)
    requires TaskKept(w, w')
    ensures w'.alive && w'.started == w.started && w'.queueing == w.queueing && w'.at == w.at
    ensures w'.inHand == w.inHand && w'.handling == w.handling
    ensures w'.acked == w.acked && w'.gapped == w.gapped && w.posts <= w'.posts && w.queue <= w'.queue
  {
  }

  /** A read at the task's own position never goes back; at a page's end it is at the head. */
  lemma ReadAhead(r: Ring, epoch: nat, name: string, at: nat, cap: Option<nat>, q: Query, o: Outcome, read: ReadResult)
    requires r.Valid() && epoch < U64_LIMIT && at <= r.Head()
    requires Reads(r, epoch, Some(CursorStr(epoch, at)), None, cap, q, o) && Renders(r, epoch, name, o, read)
    ensures at <= o.pos <= r.Head() && read.cursor == CursorStr(epoch, o.pos) && read.truncated == o.truncated
    ensures MessageOk(r, epoch, name, GapMessage(at, o.pos, read.cursor))
    ensures |read.events| == |o.picked| && (cap.Some? ==> |o.picked| <= cap.value)
    ensures forall i :: 0 <= i < |o.picked| ==>
      r.Has(o.picked[i]) && o.picked[i] <= o.pos && read.events[i] == OccurrenceOf(r, name, o.picked[i])
    ensures !o.truncated ==> forall t :: at < t <= o.pos && r.Matching(q, t) ==> t in o.picked
    ensures cap == Some(1) && o.picked == [] ==> o.pos == r.Head()
    ensures o.truncated ==> at < r.evicted
    ensures at < r.evicted ==> r.evicted <= o.pos
    ensures o.picked != [] ==> at < o.pos
    ensures o.picked != [] ==> at < o.picked[0] && q.Matches(read.events[0].data)
  {
    CursorRoundTrip(epoch, at);
    var start := StartAfter(r, epoch, CursorStr(epoch, at)).0;
    SelectMembers(r, None, q, start, o.pos);
    forall i | 0 <= i < |o.picked| ensures r.Has(o.picked[i]) && at < o.picked[i] <= o.pos && r.Wanted(None, q, o.picked[i]) {
      assert o.picked[i] in o.picked;
    }
  }

  lemma RelyIsKept(w: World, w': World)
    requires Rely(w, w')
    ensures TaskKept(w, w')
  {
  }

  lemma KeptReflexive(w: World)
    requires w.alive
    ensures TaskKept(w, w)
  {
  }

  lemma KeptAlive(w: World, w': World)
    requires TaskKept(w, w')
    ensures w'.alive
  {
  }

  lemma KeptTransitive(a: World, b: World, c: World)
    requires TaskKept(a, b) && TaskKept(b, c)
    ensures TaskKept(a, c)
  {
  }

  /** Nobody else suspends a record: one that was active is still, unless it is gone. */
  lemma StillActive(w: World, w': World)
    requires Rely(w, w') && w.slot.Some? && w.slot.value.active
    ensures w'.slot.Some? ==> w'.slot.value.active
  {
  }

  lemma RelyPosts(w: World, w': World)
    requires Rely(w, w')
    ensures w.posts <= w'.posts && Era(w'.posts) == Era(w.posts)
    ensures PostsIn(w'.posts) == PostsIn(w.posts) && FailStreak(w'.posts) <= FailStreak(w.posts)
  {
    ResetsAreNotSent(w.posts, w'.posts);
    ResetsLower(w.posts, w'.posts);
  }

  lemma OnePost(w: World, x: Post, suspendAfter: nat)
    requires x.Post?
    ensures PostMarked(w, x, suspendAfter).posts == w.posts + [x]
    ensures PostsIn(w.posts + [x]) == PostsIn(w.posts) + [x] && (w.posts + [x])[..|w.posts|] == w.posts
    ensures Era(w.posts + [x]) == Era(w.posts)
  {
    OneMoreSent(w.posts, x);
  }

  /** The last entry is this POST, and before it nothing was lost. */
  predicate Posted(before: seq<Post>, posts: seq<Post>, x: Post) {
    posts != [] && before <= posts[..|posts| - 1] && posts[|posts| - 1] == x
  }

  lemma RelyReflexive(w: World)
    ensures w.alive ==> Rely(w, w)
  {
  }

  lemma RelyAlive(w: World, w': World)
    requires Rely(w, w')
    ensures w'.alive
  {
  }
}
