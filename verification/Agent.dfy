/** The autonomous agent: a client-owned cursor, retry on failure, skipping of poison events, and crashes. */
module Agent {
  import opened Cursors
  import opened Log
  import opened Buffer
  import opened Stream

  const MAX_EVENT_ATTEMPTS: nat := 3

  /** The agent's promise so far: from `start` on, what became of each event up to `pos`. */
  datatype Ledger = Ledger(start: nat, pos: nat, handled: set<nat>, skipped: set<nat>, announced: set<nat>, silent: set<nat>)

  /** One run of the event handler, and how it ended. */
  datatype Attempt = Attempt(seqNo: nat, ok: bool)

  /** One session of the server's, up to position `p`; the agent consumed its first `taken` frames. */
  datatype Record = Record(h: History, t: Trace, p: nat, taken: nat)

  ghost predicate Settled(l: Ledger, s: nat) {
    s in l.handled || s in l.skipped || s in l.announced || s in l.silent
  }

  ghost predicate Kept(r: Ring, q: Query, l: Ledger, upto: nat) {
    forall s :: l.start < s <= upto && r.Matching(q, s) ==> Settled(l, s)
  }

  lemma KeptStable(r: Ring, r': Ring, q: Query, l: Ledger, upto: nat)
    requires Evolves(r, r') && upto <= r.Head() && Kept(r, q, l, upto)
    ensures Kept(r', q, l, upto)
  {
  }

  // ----- attempts -----

  /** How many failed attempts were at events with this id. */
  function FailuresOf(r: Ring, attempts: seq<Attempt>, id: string): nat {
    if attempts == [] then 0
    else
      var x := attempts[|attempts| - 1];
      FailuresOf(r, attempts[..|attempts| - 1], id) + if !x.ok && r.Has(x.seqNo) && r.At(x.seqNo).eventId == id then 1 else 0
  }

  function FailuresAt(attempts: seq<Attempt>, s: nat): nat {
    if attempts == [] then 0
    else FailuresAt(attempts[..|attempts| - 1], s) + if attempts[|attempts| - 1] == Attempt(s, false) then 1 else 0
  }

  ghost predicate OfLogged(r: Ring, attempts: seq<Attempt>) {
    forall i :: 0 <= i < |attempts| ==> r.Has(attempts[i].seqNo)
  }

  lemma {:induction false} FailuresStable(r: Ring, r': Ring, attempts: seq<Attempt>, id: string)
    requires Evolves(r, r') && OfLogged(r, attempts)
    ensures FailuresOf(r', attempts, id) == FailuresOf(r, attempts, id)
  {
    if attempts != [] {
      FailuresStable(r, r', attempts[..|attempts| - 1], id);
      assert r.Has(attempts[|attempts| - 1].seqNo);
    }
  }

  /** With distinct event ids, failures of an id are failures of its one event. */
  lemma {:induction false} FailuresAreOfEvent(r: Ring, attempts: seq<Attempt>, s: nat)
    requires DistinctIds(r) && r.Has(s) && OfLogged(r, attempts)
    ensures FailuresOf(r, attempts, r.At(s).eventId) == FailuresAt(attempts, s)
  {
    if attempts != [] {
      FailuresAreOfEvent(r, attempts[..|attempts| - 1], s);
      assert r.Has(attempts[|attempts| - 1].seqNo);
    }
  }

  /** Handled events had a successful attempt; poison events were really tried: their ids failed at least the allowed
      number of times. */
  ghost predicate Tried(r: Ring, l: Ledger, attempts: seq<Attempt>) {
    && OfLogged(r, attempts)
    && (forall s :: s in l.handled ==> Attempt(s, true) in attempts)
    && forall s :: s in l.skipped ==> r.Has(s) && FailuresOf(r, attempts, r.At(s).eventId) >= MAX_EVENT_ATTEMPTS
  }

  /** The handler only ran on events that a session's frame carried. */
  ghost predicate Carried(attempts: seq<Attempt>, sessions: seq<Record>) {
    forall i :: 0 <= i < |attempts| ==> InFrame(sessions, attempts[i].seqNo)
  }

  ghost predicate InFrame(sessions: seq<Record>, s: nat) {
    exists k :: 0 <= k < |sessions| && WasSent(sessions[k].h.marks, s)
  }

  lemma TriedStable(r: Ring, r': Ring, l: Ledger, attempts: seq<Attempt>)
    requires Evolves(r, r') && Tried(r, l, attempts)
    ensures Tried(r', l, attempts)
  {
    forall s | s in l.skipped ensures r'.Has(s) && FailuresOf(r', attempts, r'.At(s).eventId) >= MAX_EVENT_ATTEMPTS {
      FailuresStable(r, r', attempts, r.At(s).eventId);
    }
  }

  lemma MoreFailures(r: Ring, attempts: seq<Attempt>, x: Attempt, id: string)
    requires r.Has(x.seqNo)
    ensures FailuresOf(r, attempts + [x], id) ==
      FailuresOf(r, attempts, id) + if !x.ok && r.At(x.seqNo).eventId == id then 1 else 0
  {
    assert (attempts + [x])[..|attempts|] == attempts;
  }

  // ----- what is known about losses -----

  /** The session really took place. Agents set no age limit. */
  ghost predicate Lived(r: Ring, epoch: nat, q: Query, x: Record) {
    && Faithful(r, q, x.h, x.p) && Traced(r, epoch, q, x.h, x.t) && x.taken <= |x.h.marks|
    && x.t.probe.age.None?
  }

  ghost predicate AllLived(r: Ring, epoch: nat, q: Query, sessions: seq<Record>) {
    forall k :: 0 <= k < |sessions| ==> Lived(r, epoch, q, sessions[k])
  }

  lemma AllLivedStable(r: Ring, r': Ring, epoch: nat, q: Query, sessions: seq<Record>)
    requires Evolves(r, r') && AllLived(r, epoch, q, sessions)
    ensures AllLived(r', epoch, q, sessions)
  {
    hide Faithful, Traced;
    forall k | 0 <= k < |sessions| ensures Lived(r', epoch, q, sessions[k]) {
      assert Lived(r, epoch, q, sessions[k]);
      FaithfulStable(r, r', q, sessions[k].h, sessions[k].p);
      TracedStable(r, r', epoch, q, sessions[k].h, sessions[k].t);
    }
  }

  /** A read of a re-sync lost `s`, and the agent consumed the truncation frame that opened that re-sync. */
  ghost predicate ToldByResync(q: Query, x: Record, s: nat) {
    exists j :: 0 <= j < |x.t.resynced| && x.t.resynced[j].opening < x.taken && s in Lost(q, x.t.resynced[j])
  }

  /** The session was asked for from `c`, opened past `s`, and said so in its opening frame, which the agent consumed. */
  ghost predicate ToldByOpening(epoch: nat, q: Query, x: Record, c: nat, s: nat) {
    && x.taken > 0 && x.t.probe.out.truncated && x.t.probe.cursor == Some(CursorStr(epoch, c))
    && c < s <= x.t.probe.out.pos && x.t.probe.ring.Matching(q, s)
  }

  ghost predicate Told(epoch: nat, q: Query, x: Record, s: nat) {
    ToldByResync(q, x, s) || exists c :: ToldByOpening(epoch, q, x, c, s)
  }

  ghost predicate WasTold(epoch: nat, q: Query, sessions: seq<Record>, s: nat) {
    exists k :: 0 <= k < |sessions| && Told(epoch, q, sessions[k], s)
  }

  ghost predicate LostSilently(q: Query, sessions: seq<Record>, s: nat) {
    exists k :: 0 <= k < |sessions| && s in LostBy(q, sessions[k].t.replayed)
  }

  ghost predicate LossesKnown(epoch: nat, q: Query, l: Ledger, sessions: seq<Record>) {
    && (forall s :: s in l.announced ==> WasTold(epoch, q, sessions, s))
    && (forall s :: s in l.silent ==> LostSilently(q, sessions, s))
  }

  /** Sessions are added, and of those there more frames are consumed. */
  ghost predicate Extends(sessions: seq<Record>, sessions': seq<Record>) {
    && |sessions| <= |sessions'|
    && forall k :: 0 <= k < |sessions| ==>
         && sessions'[k] == sessions[k].(taken := sessions'[k].taken) && sessions[k].taken <= sessions'[k].taken
  }

  lemma ToldStill(epoch: nat, q: Query, x: Record, taken: nat, s: nat)
    requires Told(epoch, q, x, s) && x.taken <= taken
    ensures Told(epoch, q, x.(taken := taken), s)
  {
    var x' := x.(taken := taken);
    if ToldByResync(q, x, s) {
      var j :| 0 <= j < |x.t.resynced| && x.t.resynced[j].opening < x.taken && s in Lost(q, x.t.resynced[j]);
      assert x'.t.resynced[j].opening < x'.taken;
    } else {
      var c :| ToldByOpening(epoch, q, x, c, s);
      assert ToldByOpening(epoch, q, x', c, s);
    }
  }

  lemma KnownStill(epoch: nat, q: Query, l: Ledger, sessions: seq<Record>, sessions': seq<Record>)
    requires LossesKnown(epoch, q, l, sessions) && Extends(sessions, sessions')
    ensures LossesKnown(epoch, q, l, sessions')
  {
    hide Told, LostBy;
    forall s | s in l.announced ensures WasTold(epoch, q, sessions', s) {
      var k :| 0 <= k < |sessions| && Told(epoch, q, sessions[k], s);
      ToldStill(epoch, q, sessions[k], sessions'[k].taken, s);
    }
    forall s | s in l.silent ensures LostSilently(q, sessions', s) {
      var k :| 0 <= k < |sessions| && s in LostBy(q, sessions[k].t.replayed);
      assert s in LostBy(q, sessions'[k].t.replayed);
    }
  }

  lemma CarriedStill(attempts: seq<Attempt>, sessions: seq<Record>, sessions': seq<Record>)
    requires Carried(attempts, sessions) && Extends(sessions, sessions')
    ensures Carried(attempts, sessions')
  {
    hide WasSent;
    forall i | 0 <= i < |attempts| ensures InFrame(sessions', attempts[i].seqNo) {
      assert InFrame(sessions, attempts[i].seqNo);
      var k :| 0 <= k < |sessions| && WasSent(sessions[k].h.marks, attempts[i].seqNo);
      assert WasSent(sessions'[k].h.marks, attempts[i].seqNo);
    }
  }

  /** A start that skipped a matching event without an age limit skipped only what had been evicted. */
  lemma OpeningEvicted(r: Ring, epoch: nat, q: Query, x: Opening, c: nat, s: nat)
    requires epoch < U64_LIMIT && WasOpened(r, epoch, q, x) && x.age.None? && x.cursor == Some(CursorStr(epoch, c))
    requires c < s <= x.out.pos && x.ring.Matching(q, s)
    ensures s <= r.evicted
  {
    hide CursorStr, ParseCursor;
    CursorRoundTrip(epoch, c);
    var start := StartAfter(x.ring, epoch, CursorStr(epoch, c)).0;
    SelectMembers(x.ring, None, q, start, x.out.pos);
    assert x.out.picked == [];
    assert s > start ==> s in Select(x.ring, None, q, start, x.out.pos);
  }

  /** A read without an age limit lost only what had been evicted. */
  lemma LostWasEvicted(r: Ring, epoch: nat, q: Query, marks: seq<Mark>, fetched: seq<Fetched>, k: nat, s: nat)
    requires epoch < U64_LIMIT && WereRead(r, epoch, q, marks, fetched) && Aged(None, fetched)
    requires k < |fetched| && s in Lost(q, fetched[k])
    ensures s <= r.evicted
  {
    assert WasRead(r, epoch, q, fetched[k]);
    hide Reads, CursorStr, Lost;
    LostFrom(r, epoch, q, marks, fetched, k, s);
  }

  /** Whatever an agent was told to be lost, and whatever it lost without being told, had been evicted. */
  lemma LossesWereEvicted(r: Ring, epoch: nat, q: Query, x: Record, s: nat)
    requires epoch < U64_LIMIT && Lived(r, epoch, q, x)
    requires Told(epoch, q, x, s) || s in LostBy(q, x.t.replayed)
    ensures s <= r.evicted
  {
    hide Faithful, WasOpened, CursorStr, Lost, LostBy, WereRead, ByReplay, ByResync;
    if s in LostBy(q, x.t.replayed) {
      LostInOne(q, x.t.replayed);
      var k :| 0 <= k < |x.t.replayed| && s in Lost(q, x.t.replayed[k]);
      LostWasEvicted(r, epoch, q, x.h.marks, x.t.replayed, k, s);
    } else if ToldByResync(q, x, s) {
      var k :| 0 <= k < |x.t.resynced| && x.t.resynced[k].opening < x.taken && s in Lost(q, x.t.resynced[k]);
      LostWasEvicted(r, epoch, q, x.h.marks, x.t.resynced, k, s);
    } else {
      var c :| ToldByOpening(epoch, q, x, c, s);
      OpeningEvicted(r, epoch, q, x.t.probe, c, s);
    }
  }

  // ----- consuming a session's frames -----

  /** What consuming frame `k` of a session settles besides the event it carries: the session's losses up to there. */
  ghost function Consume(h: History, k: nat, l: Ledger): Ledger
    requires k < |h.marks|
  {
    var span := set s | l.pos < s <= h.marks[k].pos && (s in h.announced || s in h.silent);
    l.(pos := h.marks[k].pos,
       announced := l.announced + (set s | s in span && s in h.announced),
       silent := l.silent + (set s | s in span && s in h.silent))
  }

  lemma SentAtOrBefore(r: Ring, q: Query, h: History, p: nat, k: nat, s: nat)
    requires Faithful(r, q, h, p) && 0 < k < |h.marks| && WasSent(h.marks[..k + 1], s) && s > h.marks[k - 1].pos
    ensures h.marks[k].Sent? && h.marks[k].seqNo == s
  {
    var j :| 0 <= j < k + 1 && h.marks[..k + 1][j].Sent? && h.marks[..k + 1][j].seqNo == s;
    assert h.marks[j] == h.marks[..k + 1][j];
    assert j == k;
  }

  /** Consuming the frames of a session in order keeps the promise. */
  lemma ConsumeKeeps(r: Ring, q: Query, h: History, p: nat, k: nat, l: Ledger)
    requires Faithful(r, q, h, p) && 0 < k < |h.marks| && h.marks[0].pos == h.origin && l.pos == h.marks[k - 1].pos
    requires Kept(r, q, l, l.pos)
    requires h.marks[k].Sent? ==> Settled(l, h.marks[k].seqNo)
    ensures Kept(r, q, Consume(h, k, l), h.marks[k].pos)
    ensures l.pos <= h.marks[k].pos <= r.Head()
  {
    var l' := Consume(h, k, l);
    assert Covered(r, q, h, k + 1, h.marks[k].pos);
    assert h.origin <= l.pos <= h.marks[k].pos;
    forall s | l'.start < s <= h.marks[k].pos && r.Matching(q, s) ensures Settled(l', s) {
      if s <= l.pos {
        assert Settled(l, s);
      } else {
        assert Accounted(h, k + 1, s);
        if WasSent(h.marks[..k + 1], s) {
          SentAtOrBefore(r, q, h, p, k, s);
        }
      }
    }
  }

  /** What is announced as lost at or before a frame's position was announced by an earlier frame. */
  lemma LossWasTold(r: Ring, epoch: nat, q: Query, x: Record, k: nat, s: nat)
    requires epoch < U64_LIMIT && Lived(r, epoch, q, x) && k < |x.h.marks| && s in x.h.announced && s <= x.h.marks[k].pos
    ensures Told(epoch, q, x.(taken := k + 1), s)
  {
    LossesAre(r, epoch, q, x.h, x.t);
    hide Lost, LostBy, WereRead, WasOpened, Covered;
    var j :| 0 <= j < |x.t.resynced| && s in Lost(q, x.t.resynced[j]);
    var o := x.t.resynced[j].opening;
    assert o < |x.h.marks| && x.h.marks[o].pos < x.h.marks[k].pos;
    assert o <= k;
    assert ToldByResync(q, x.(taken := k + 1), s);
  }

  /** Consuming the opening frame: an own-epoch cursor resumes where it stood, any other cursor starts afresh. */
  ghost function ConsumeOpening(r: Ring, q: Query, h: History, placed: bool, l: Ledger): Ledger
    requires |h.marks| > 0 && h.marks[0].Opened?
  {
    var m := h.marks[0];
    if !placed then Ledger(m.pos, m.pos, {}, {}, {}, {})
    else if m.truncated
    then l.(pos := m.pos, announced := l.announced + (set s | l.pos < s <= m.pos && r.Matching(q, s)))
    else l.(pos := m.pos)
  }

  lemma OpeningKeeps(r: Ring, epoch: nat, q: Query, h: History, head: nat, cursor: Option<string>, placed: bool, l: Ledger)
    requires |h.marks| > 0 && h.marks[0].Opened?
    requires placed ==> cursor == Some(CursorStr(epoch, l.pos)) && l.pos <= head && Kept(r, q, l, l.pos)
    requires ResumesFrom(head, r, epoch, q, cursor, h.marks[0].pos, h.marks[0].truncated)
    ensures var l' := ConsumeOpening(r, q, h, placed, l);
            Kept(r, q, l', l'.pos) && (placed ==> l.pos <= l'.pos && l'.start == l.start)
  {
    var l' := ConsumeOpening(r, q, h, placed, l);
    if placed {
      assert l.pos <= h.marks[0].pos;
      forall s | l'.start < s <= l'.pos && r.Matching(q, s) ensures Settled(l', s) {
        if s <= l.pos {
          assert Settled(l, s);
        }
      }
    }
  }

  // ----- the promise -----

  /** What an agent at position `upto` of its ledger owes. Every matching event past the start was handled with success,
      or failed at least the allowed number of times, or had been evicted: then a truncation frame that the agent
      consumed announced it, or it fell to a replay loop. With distinct ids the failures were the event's own. */
  ghost predicate AtLeastOnce(r: Ring, epoch: nat, q: Query, start: nat, attempts: seq<Attempt>, sessions: seq<Record>,
                              upto: nat)
  {
    forall s :: start < s <= upto && r.Matching(q, s) ==>
      || Attempt(s, true) in attempts
      || (FailuresOf(r, attempts, r.At(s).eventId) >= MAX_EVENT_ATTEMPTS
          && (DistinctIds(r) ==> FailuresAt(attempts, s) >= MAX_EVENT_ATTEMPTS))
      || (s <= r.evicted && (WasTold(epoch, q, sessions, s) || LostSilently(q, sessions, s)))
  }

  lemma PromiseMeans(r: Ring, epoch: nat, q: Query, l: Ledger, attempts: seq<Attempt>, sessions: seq<Record>, upto: nat)
    requires epoch < U64_LIMIT && Kept(r, q, l, upto) && Tried(r, l, attempts)
    requires LossesKnown(epoch, q, l, sessions) && AllLived(r, epoch, q, sessions)
    ensures AtLeastOnce(r, epoch, q, l.start, attempts, sessions, upto)
  {
    hide AllLived, WasTold, LostSilently;
    forall s | l.start < s <= upto && r.Matching(q, s)
      ensures
        || Attempt(s, true) in attempts
        || (FailuresOf(r, attempts, r.At(s).eventId) >= MAX_EVENT_ATTEMPTS
            && (DistinctIds(r) ==> FailuresAt(attempts, s) >= MAX_EVENT_ATTEMPTS))
        || (s <= r.evicted && (WasTold(epoch, q, sessions, s) || LostSilently(q, sessions, s)))
    {
      assert Settled(l, s);
      if s in l.announced || s in l.silent {
        KnownWasEvicted(r, epoch, q, sessions, s);
      } else if s in l.skipped && DistinctIds(r) {
        FailuresAreOfEvent(r, attempts, s);
      }
    }
  }

  lemma KnownWasEvicted(r: Ring, epoch: nat, q: Query, sessions: seq<Record>, s: nat)
    requires epoch < U64_LIMIT && AllLived(r, epoch, q, sessions)
    requires WasTold(epoch, q, sessions, s) || LostSilently(q, sessions, s)
    ensures s <= r.evicted
  {
    hide Lived, Told, LostBy;
    var k :| 0 <= k < |sessions| && (Told(epoch, q, sessions[k], s) || s in LostBy(q, sessions[k].t.replayed));
    LossesWereEvicted(r, epoch, q, sessions[k], s);
  }

  /** The agent's variables, and the books kept on its behalf: the state file it began with, whether cursor and file are
      positions of this epoch, what they settled, its attempts, the sessions it had, and how many of these there had been
      at each crash and at each successful save. */
  datatype Books = Books(cursor: Option<string>, file: Option<string>, failures: Option<(string, nat)>, initial: Option<string>,
                         placed: bool, filePlaced: bool, filePos: nat, ledger: Ledger, attempts: seq<Attempt>,
                         sessions: seq<Record>, crashes: seq<nat>, saves: seq<nat>)

  ghost predicate Placed(r: Ring, epoch: nat, q: Query, b: Books) {
    if b.placed
    then b.cursor == Some(CursorStr(epoch, b.ledger.pos)) && b.ledger.start <= b.ledger.pos <= r.Head()
         && Kept(r, q, b.ledger, b.ledger.pos)
    else b.cursor == b.initial
  }

  ghost predicate FilePlaced(epoch: nat, b: Books) {
    if b.filePlaced
    then b.placed && b.file == Some(CursorStr(epoch, b.filePos)) && b.ledger.start <= b.filePos <= b.ledger.pos
    else b.file == b.initial
  }

  ghost predicate Sound(r: Ring, epoch: nat, q: Query, b: Books) {
    && Placed(r, epoch, q, b) && FilePlaced(epoch, b)
    && Tried(r, b.ledger, b.attempts)
    && (b.failures.Some? ==> FailuresOf(r, b.attempts, b.failures.value.0) >= b.failures.value.1)
    && LossesKnown(epoch, q, b.ledger, b.sessions) && AllLived(r, epoch, q, b.sessions) && Carried(b.attempts, b.sessions)
  }

  lemma SoundStable(r: Ring, r': Ring, epoch: nat, q: Query, b: Books)
    requires Evolves(r, r') && Sound(r, epoch, q, b)
    ensures Sound(r', epoch, q, b)
  {
    hide AllLived, LossesKnown, Carried, CursorStr;
    TriedStable(r, r', b.ledger, b.attempts);
    AllLivedStable(r, r', epoch, q, b.sessions);
    if b.placed {
      KeptStable(r, r', q, b.ledger, b.ledger.pos);
    }
    if b.failures.Some? {
      FailuresStable(r, r', b.attempts, b.failures.value.0);
    }
  }

  /** Persisting takes a cursor over and saves it; the save may fail, which is only logged. */
  function Persisted(b: Books, c: string, saved: bool): Books {
    if saved
    then b.(cursor := Some(c), file := Some(c), filePlaced := b.placed, filePos := b.ledger.pos,
            saves := b.saves + [|b.sessions|])
    else b.(cursor := Some(c))
  }

  /** A crash loses everything but the state file. */
  function Crashed(b: Books): Books {
    b.(cursor := b.file, failures := None, placed := b.filePlaced, ledger := b.ledger.(pos := b.filePos),
       crashes := b.crashes + [|b.sessions|])
  }

  lemma SoundAfterCrash(r: Ring, epoch: nat, q: Query, b: Books)
    requires Sound(r, epoch, q, b)
    ensures Sound(r, epoch, q, Crashed(b))
  {
    hide AllLived, WasTold, LostSilently, Carried, CursorStr;
  }

  /** Handling an event: success, or a counted failure that skips it once it has used up its attempts. */
  function Handled(b: Books, s: nat, id: string, ok: bool): (Books, bool) {
    var b1 := b.(attempts := b.attempts + [Attempt(s, ok)]);
    if ok then (b1.(failures := None, ledger := b.ledger.(handled := b.ledger.handled + {s})), true)
    else
      var count := if b.failures.Some? && b.failures.value.0 == id then b.failures.value.1 + 1 else 1;
      if count >= MAX_EVENT_ATTEMPTS
      then (b1.(failures := None, ledger := b.ledger.(skipped := b.ledger.skipped + {s})), true)
      else (b1.(failures := Some((id, count))), false)
  }

  /** What the failure count sees: a run of the handler on an event with this id, or a crash. */
  datatype Try = Ran(id: string, ok: bool) | CameBack

  predicate FailsAt(x: Try, id: string) {
    x.Ran? && !x.ok && x.id == id
  }

  /** How many tries at the end were failures at `id`, one after the other. */
  function Trailing(tries: seq<Try>, id: string): nat {
    if tries == [] || !FailsAt(tries[|tries| - 1], id) then 0 else Trailing(tries[..|tries| - 1], id) + 1
  }

  function AfterTry(b: Books, x: Try, s: nat): Books {
    if x.CameBack? then Crashed(b) else Handled(b, s, x.id, x.ok).0
  }

  function AfterTries(b: Books, tries: seq<Try>, at: seq<nat>): Books
    requires |at| == |tries|
  {
    if tries == [] then b
    else AfterTry(AfterTries(b, tries[..|tries| - 1], at[..|at| - 1]), tries[|tries| - 1], at[|at| - 1])
  }

  /** Over any run of successes, failures and crashes the count is that of the failures at one id at its end, every third
      of which starts afresh. */
  lemma {:induction false} CountIsTrailing(b: Books, tries: seq<Try>, at: seq<nat>, id: string)
    requires |at| == |tries| && b.failures.None?
    ensures var f := AfterTries(b, tries, at).failures;
      (if f.Some? && f.value.0 == id then f.value.1 else 0) == Trailing(tries, id) % 3
    ensures var f := AfterTries(b, tries, at).failures; f.Some? ==> f.value.1 > 0
  {
    if tries != [] {
      CountIsTrailing(b, tries[..|tries| - 1], at[..|at| - 1], id);
      ThirdOne(Trailing(tries[..|tries| - 1], id));
    }
  }

  /** So an event whose handler keeps failing is retried twice and given up at the third failure, and only then; an event
      that was handled is done. */
  lemma ThirdFailureSkips(b: Books, tries: seq<Try>, at: seq<nat>, s: nat, id: string, ok: bool)
    requires |at| == |tries| && b.failures.None?
    ensures var (b', done) := Handled(AfterTries(b, tries, at), s, id, ok);
      && (done <==> ok || Trailing(tries + [Ran(id, false)], id) % 3 == 0)
      && (ok ==> s in b'.ledger.handled) && (done && !ok ==> s in b'.ledger.skipped)
      && (!done ==> b'.ledger == AfterTries(b, tries, at).ledger)
  {
    hide AfterTries, Handled;
    CountIsTrailing(b, tries, at, id);
    var n := Trailing(tries, id);
    assert (tries + [Ran(id, false)])[..|tries|] == tries;
    var last := Trailing(tries + [Ran(id, false)], id);
    assert last == n + 1;
    ThirdOne(n);
    HandledAtCount(AfterTries(b, tries, at), s, id, ok, n % 3);
  }

  lemma ThirdOne(n: nat)
    ensures (n + 1) % 3 == (if n % 3 == 2 then 0 else n % 3 + 1) && n % 3 < 3
  {
  }

  lemma HandledAtCount(b: Books, s: nat, id: string, ok: bool, n: nat)
    requires n < 3 && n == if b.failures.Some? && b.failures.value.0 == id then b.failures.value.1 else 0
    ensures var (b', done) := Handled(b, s, id, ok);
      && (done <==> ok || n == 2) && (ok ==> s in b'.ledger.handled) && (done && !ok ==> s in b'.ledger.skipped)
      && (!done ==> b'.ledger == b.ledger)
  {
  }

  lemma SoundAfterHandling(r: Ring, epoch: nat, q: Query, b: Books, s: nat, ok: bool)
    requires Sound(r, epoch, q, b) && r.Has(s) && InFrame(b.sessions, s)
    ensures var (b', done) := Handled(b, s, r.At(s).eventId, ok);
            && Sound(r, epoch, q, b') && (done ==> Settled(b'.ledger, s))
            && b'.ledger.pos == b.ledger.pos && b'.ledger.start == b.ledger.start
            && b' == b.(failures := b'.failures, ledger := b'.ledger, attempts := b'.attempts) && b.attempts <= b'.attempts
  {
    hide AllLived, WasTold, LostSilently, InFrame, CursorStr;
    var (b', done) := Handled(b, s, r.At(s).eventId, ok);
    TriedMore(r, b, b', s, ok);
    if b.placed {
      KeptWider(r, q, b.ledger, b'.ledger, b.ledger.pos);
    }
  }

  lemma TriedMore(r: Ring, b: Books, b': Books, s: nat, ok: bool)
    requires r.Has(s) && Tried(r, b.ledger, b.attempts) && b' == Handled(b, s, r.At(s).eventId, ok).0
    requires b.failures.Some? ==> FailuresOf(r, b.attempts, b.failures.value.0) >= b.failures.value.1
    ensures Tried(r, b'.ledger, b'.attempts)
    ensures b'.failures.Some? ==> FailuresOf(r, b'.attempts, b'.failures.value.0) >= b'.failures.value.1
  {
    var x := Attempt(s, ok);
    assert b'.attempts[|b.attempts|] == x;
    forall id: string ensures FailuresOf(r, b'.attempts, id) ==
      FailuresOf(r, b.attempts, id) + if !ok && r.At(s).eventId == id then 1 else 0
    {
      MoreFailures(r, b.attempts, x, id);
    }
  }

  lemma KeptWider(r: Ring, q: Query, l: Ledger, l': Ledger, upto: nat)
    requires Kept(r, q, l, upto)
    requires l' == l.(handled := l'.handled, skipped := l'.skipped) && l.handled <= l'.handled && l.skipped <= l'.skipped
    ensures Kept(r, q, l', upto)
  {
    forall s | l'.start < s <= upto && r.Matching(q, s) ensures Settled(l', s) {
      assert Settled(l, s);
    }
  }

  // ----- the books over a session -----

  function Current(b: Books): Record
    requires b.sessions != []
  {
    b.sessions[|b.sessions| - 1]
  }

  function Took(sessions: seq<Record>, taken: nat): seq<Record>
    requires sessions != []
  {
    sessions[|sessions| - 1 := sessions[|sessions| - 1].(taken := taken)]
  }

  /** Where the agent stands before consuming frame `k` of its current session. */
  ghost predicate Before(b: Books, k: nat) {
    && b.sessions != [] && Current(b).taken == k <= |Current(b).h.marks|
    && var x := Current(b);
    if k == 0 then x.t.probe.cursor == b.cursor && (b.placed ==> b.ledger.pos <= x.t.probe.ring.Head())
    else b.placed && b.ledger.pos == x.h.marks[k - 1].pos
  }

  /** The books after moving past frame `k`, and before the frame's cursor is persisted. */
  ghost function Consumed(r: Ring, q: Query, b: Books, k: nat): Books
    requires b.sessions != [] && k < |Current(b).h.marks| && (k == 0 ==> Current(b).h.marks[0].Opened?)
  {
    var h := Current(b).h;
    b.(ledger := if k == 0 then ConsumeOpening(r, q, h, b.placed, b.ledger) else Consume(h, k, b.ledger),
       placed := true, sessions := Took(b.sessions, k + 1))
  }

  /** The current session opened from the cursor of the agent's first state file, and the promise starts there. */
  ghost predicate StartsAt(x: Record, initial: Option<string>, start: nat) {
    x.taken > 0 && x.t.probe.cursor == initial && start == x.h.origin
  }

  /** The file holds a position of this epoch once one was saved there. */
  ghost predicate Saves(b: Books, b': Books) {
    b.saves <= b'.saves && (b'.filePlaced <==> b.filePlaced || |b.saves| < |b'.saves|)
  }

  /** What consuming frames keeps: the sessions, and where the promise starts. */
  ghost predicate Onward(b: Books, b': Books) {
    && b.sessions != [] && |b'.sessions| == |b.sessions| && b'.initial == b.initial && b.attempts <= b'.attempts
    && b'.crashes == b.crashes && Saves(b, b') && (forall i :: |b.saves| <= i < |b'.saves| ==> b'.saves[i] == |b.sessions|)
    && b'.sessions == Took(b.sessions, Current(b').taken) && Current(b).taken <= Current(b').taken
    && (b.placed ==> b'.placed && b'.ledger.start == b.ledger.start)
    && (!b.placed && b'.placed ==> StartsAt(Current(b'), b.initial, b'.ledger.start))
  }

  lemma OnwardReflexive(b: Books)
    requires b.sessions != []
    ensures Onward(b, b)
  {
  }

  lemma OnwardTransitive(a: Books, b: Books, c: Books)
    requires Onward(a, b) && Onward(b, c)
    ensures Onward(a, c)
  {
  }

  lemma CurrentLived(r: Ring, epoch: nat, q: Query, b: Books)
    requires Sound(r, epoch, q, b) && b.sessions != []
    ensures Lived(r, epoch, q, Current(b)) && |Current(b).h.marks| > 0 && Current(b).h.marks[0].Opened?
  {
    hide Faithful, WasOpened, WereRead, LostBy, LossesKnown, Tried, Kept;
  }

  lemma TookExtends(r: Ring, epoch: nat, q: Query, sessions: seq<Record>, taken: nat)
    requires sessions != [] && AllLived(r, epoch, q, sessions)
    requires sessions[|sessions| - 1].taken <= taken <= |sessions[|sessions| - 1].h.marks|
    ensures Extends(sessions, Took(sessions, taken)) && AllLived(r, epoch, q, Took(sessions, taken))
  {
    hide Faithful, Traced;
    var n := |sessions| - 1;
    assert Lived(r, epoch, q, sessions[n]);
    assert Lived(r, epoch, q, sessions[n].(taken := taken));
    forall k | 0 <= k < |sessions| ensures Lived(r, epoch, q, Took(sessions, taken)[k]) {
      assert Lived(r, epoch, q, sessions[k]);
    }
  }

  lemma SoundSays(r: Ring, epoch: nat, q: Query, b: Books)
    requires Sound(r, epoch, q, b)
    ensures Tried(r, b.ledger, b.attempts) && LossesKnown(epoch, q, b.ledger, b.sessions) && AllLived(r, epoch, q, b.sessions)
    ensures Carried(b.attempts, b.sessions)
    ensures b.placed ==>
      b.cursor == Some(CursorStr(epoch, b.ledger.pos)) && b.ledger.pos <= r.Head() && Kept(r, q, b.ledger, b.ledger.pos)
  {
    hide Tried, LossesKnown, AllLived, Carried, Kept, CursorStr;
  }

  /** What moving past frame `k` newly books as lost is known from the current session. */
  lemma NewLosses(r: Ring, epoch: nat, q: Query, b: Books, k: nat, s: nat)
    requires epoch < U64_LIMIT && Sound(r, epoch, q, b) && Before(b, k) && k < |Current(b).h.marks|
    requires k == 0 ==> Current(b).h.marks[0].Opened?
    ensures var l' := Consumed(r, q, b, k).ledger;
            && (s in l'.announced && s !in b.ledger.announced ==> Told(epoch, q, Current(b).(taken := k + 1), s))
            && (s in l'.silent && s !in b.ledger.silent ==> s in LostBy(q, Current(b).t.replayed))
  {
    hide Told, Sound, Lived, LostBy;
    CurrentLived(r, epoch, q, b);
    var x, l' := Current(b), Consumed(r, q, b, k).ledger;
    if s in l'.announced && s !in b.ledger.announced {
      if k == 0 {
        OpeningTells(r, epoch, q, b, s);
      } else {
        LossWasTold(r, epoch, q, x, k, s);
      }
    }
    SilentIsReplays(r, epoch, q, x);
  }

  lemma SilentIsReplays(r: Ring, epoch: nat, q: Query, x: Record)
    requires Lived(r, epoch, q, x)
    ensures x.h.silent == LostBy(q, x.t.replayed)
  {
    hide Faithful, WasOpened, WereRead, LostBy;
  }

  lemma ConsumedKnown(r: Ring, epoch: nat, q: Query, b: Books, k: nat)
    requires epoch < U64_LIMIT && Sound(r, epoch, q, b) && Before(b, k) && k < |Current(b).h.marks|
    requires k == 0 ==> Current(b).h.marks[0].Opened?
    ensures var b' := Consumed(r, q, b, k);
            && LossesKnown(epoch, q, b'.ledger, b'.sessions) && AllLived(r, epoch, q, b'.sessions)
            && Carried(b.attempts, b'.sessions)
  {
    hide Sound, Told, LostBy, AllLived, Carried, Extends, Consume, ConsumeOpening;
    var b', n := Consumed(r, q, b, k), |b.sessions| - 1;
    SoundSays(r, epoch, q, b);
    TookExtends(r, epoch, q, b.sessions, k + 1);
    KnownStill(epoch, q, b.ledger, b.sessions, b'.sessions);
    CarriedStill(b.attempts, b.sessions, b'.sessions);
    assert b'.sessions[n] == Current(b).(taken := k + 1);
    forall s | s in b'.ledger.announced ensures WasTold(epoch, q, b'.sessions, s) {
      NewLosses(r, epoch, q, b, k, s);
    }
    forall s | s in b'.ledger.silent ensures LostSilently(q, b'.sessions, s) {
      NewLosses(r, epoch, q, b, k, s);
    }
  }

  lemma OpeningTells(r: Ring, epoch: nat, q: Query, b: Books, s: nat)
    requires epoch < U64_LIMIT && Sound(r, epoch, q, b) && Before(b, 0)
    requires |Current(b).h.marks| > 0 && Current(b).h.marks[0].Opened?
    requires s in Consumed(r, q, b, 0).ledger.announced && s !in b.ledger.announced
    ensures Told(epoch, q, Current(b).(taken := 1), s)
  {
    hide Sound, Lived, Kept, Tried, LossesKnown, AllLived, ToldByResync;
    SoundSays(r, epoch, q, b);
    CurrentLived(r, epoch, q, b);
    var x := Current(b);
    OpenedAtProbe(r, epoch, q, x);
    assert ToldByOpening(epoch, q, x.(taken := 1), b.ledger.pos, s);
  }

  lemma OpenedAtProbe(r: Ring, epoch: nat, q: Query, x: Record)
    requires epoch < U64_LIMIT && Lived(r, epoch, q, x)
    ensures |x.h.marks| > 0 && x.h.marks[0] == Opened(x.t.probe.out.pos, x.t.probe.out.truncated)
    ensures x.h.origin == x.t.probe.out.pos
    ensures x.t.probe.out.pos <= x.t.probe.ring.Head() <= r.Head() && Evolves(x.t.probe.ring, r)
    ensures ResumesFrom(x.t.probe.ring.Head(), r, epoch, q, x.t.probe.cursor, x.t.probe.out.pos, x.t.probe.out.truncated)
  {
    hide Faithful, Reads, WereRead, LostBy, ResumesFrom;
    OpeningResumes(r, epoch, q, x.t.probe);
  }

  /** The ledger after moving past a frame. */
  lemma ConsumedKeeps(r: Ring, epoch: nat, q: Query, b: Books, k: nat)
    requires epoch < U64_LIMIT && Sound(r, epoch, q, b) && Before(b, k) && k < |Current(b).h.marks|
    requires k == 0 ==> Current(b).h.marks[0].Opened?
    requires Current(b).h.marks[k].Sent? ==> Settled(b.ledger, Current(b).h.marks[k].seqNo)
    ensures var l', pos := Consumed(r, q, b, k).ledger, Current(b).h.marks[k].pos;
            && l'.pos == pos <= r.Head() && Kept(r, q, l', pos) && Tried(r, l', b.attempts)
            && (b.placed ==> l'.start == b.ledger.start && b.ledger.pos <= pos)
            && (!b.placed ==> k == 0 && l'.start == pos == Current(b).h.origin)
  {
    hide Sound, Lived, Kept, Tried, LossesKnown, AllLived, Consume, ConsumeOpening, ResumesFrom;
    var x := Current(b);
    SoundSays(r, epoch, q, b);
    CurrentLived(r, epoch, q, b);
    OpenedAtProbe(r, epoch, q, x);
    SettlesNoAttempt(r, q, b, k);
    if k == 0 {
      OpeningKeeps(r, epoch, q, x.h, x.t.probe.ring.Head(), b.cursor, b.placed, b.ledger);
    } else {
      LivedFaithful(r, epoch, q, x);
      ConsumeKeeps(r, q, x.h, x.p, k, b.ledger);
    }
  }

  lemma LivedFaithful(r: Ring, epoch: nat, q: Query, x: Record)
    requires Lived(r, epoch, q, x)
    ensures Faithful(r, q, x.h, x.p)
  {
    hide Faithful, Traced;
  }

  lemma SoundAfterFrame(r: Ring, epoch: nat, q: Query, b: Books, k: nat, saved: bool)
    requires epoch < U64_LIMIT && Sound(r, epoch, q, b) && Before(b, k) && k < |Current(b).h.marks|
    requires k == 0 ==> Current(b).h.marks[0].Opened?
    requires Current(b).h.marks[k].Sent? ==> Settled(b.ledger, Current(b).h.marks[k].seqNo)
    ensures var b' := Persisted(Consumed(r, q, b, k), CursorStr(epoch, Current(b).h.marks[k].pos), saved);
            Sound(r, epoch, q, b') && Before(b', k + 1) && Onward(b, b')
  {
    hide Lived, Kept, Tried, LossesKnown, AllLived, Carried, Consume, ConsumeOpening, Settled, CursorStr;
    ConsumedKnown(r, epoch, q, b, k);
    ConsumedKeeps(r, epoch, q, b, k);
  }

  /** Moving past a frame touches neither what was handled nor what was skipped, but for a promise that starts afresh. */
  lemma SettlesNoAttempt(r: Ring, q: Query, b: Books, k: nat)
    requires b.sessions != [] && k < |Current(b).h.marks| && (k == 0 ==> Current(b).h.marks[0].Opened?)
    requires Tried(r, b.ledger, b.attempts) && (k > 0 ==> b.placed)
    ensures var l' := Consumed(r, q, b, k).ledger;
            && Tried(r, l', b.attempts) && l'.pos == Current(b).h.marks[k].pos
            && l'.start == if b.placed then b.ledger.start else Current(b).h.marks[0].pos
  {
  }

  lemma ConsumedOnly(r: Ring, q: Query, b: Books, k: nat)
    requires b.sessions != [] && k < |Current(b).h.marks| && (k == 0 ==> Current(b).h.marks[0].Opened?)
    ensures var b' := Consumed(r, q, b, k); b' == b.(ledger := b'.ledger, placed := true, sessions := b'.sessions)
  {
  }

  lemma BeforeTaken(b: Books, k: nat)
    requires Before(b, k)
    ensures b.sessions != [] && Current(b).taken == k && (k > 0 ==> b.placed) && Onward(b, b)
  {
  }

  lemma CurrentFrame(b: Books, k: nat)
    requires b.sessions != [] && k < |Current(b).h.marks| && Current(b).h.marks[k].Sent?
    ensures InFrame(b.sessions, Current(b).h.marks[k].seqNo)
  {
    assert WasSent(b.sessions[|b.sessions| - 1].h.marks, Current(b).h.marks[k].seqNo);
  }

  /** The handler ran once, on event `s`; the connection is given up exactly when it failed and is to be retried. */
  ghost predicate TriedOnce(b: Books, b': Books, s: nat, stop: bool) {
    && |b'.attempts| == |b.attempts| + 1 && b'.attempts[..|b.attempts|] == b.attempts
    && b'.attempts[|b.attempts|].seqNo == s
    && (stop <==> b'.failures.Some?) && (stop ==> !b'.attempts[|b.attempts|].ok)
  }

  /** The frames were all consumed, as far as they reached the agent, up to the end of the stream or an event that is to
      be retried. */
  ghost predicate StoppedRightly(frames: seq<Frame>, take: nat, b: Books, b': Books)
    requires b'.sessions != []
  {
    var n := Current(b').taken;
    n < take && n < |frames| ==>
      || frames[n].Closed?
      || (&& frames[n].EventFrame? && n < |Current(b').h.marks| && Current(b').h.marks[n].Sent?
          && |b.attempts| < |b'.attempts| && b'.attempts[|b'.attempts| - 1] == Attempt(Current(b').h.marks[n].seqNo, false))
  }

  lemma FrameKind(r: Ring, epoch: nat, name: string, f: Frame, m: Mark)
    requires FrameIs(r, epoch, name, f, m)
    ensures f.EventFrame? <==> m.Sent?
  {
  }

  lemma TriedLast(b: Books, b1: Books, b': Books, f: Frame, k: nat)
    requires Onward(b, b1) && Onward(b1, b') && k < |Current(b1).h.marks| && (f.EventFrame? <==> Current(b1).h.marks[k].Sent?)
    requires if f.EventFrame? then TriedOnce(b1, b', Current(b1).h.marks[k].seqNo, true) else f.Closed?
    ensures b'.sessions != [] && k < |Current(b').h.marks|
    ensures (f.Closed? || (f.EventFrame? && Current(b').h.marks[k].Sent? && |b.attempts| < |b'.attempts|
              && b'.attempts[|b'.attempts| - 1] == Attempt(Current(b').h.marks[k].seqNo, false)))
  {
  }

  lemma OnwardSame(b: Books, b': Books)
    requires Onward(b, b')
    ensures b.sessions != [] && b'.sessions != [] && Current(b').h == Current(b).h
  {
  }

  lemma HandledOnward(b: Books, b': Books, k: nat)
    requires Before(b, k)
    requires b' == b.(failures := b'.failures, ledger := b'.ledger, attempts := b'.attempts) && b.attempts <= b'.attempts
    requires b'.ledger.pos == b.ledger.pos && b'.ledger.start == b.ledger.start
    ensures Before(b', k) && Onward(b, b') && Current(b') == Current(b)
  {
  }

  /** A session that was asked for from the agent's cursor joins the books. */
  lemma SessionJoins(r0: Ring, r: Ring, epoch: nat, q: Query, b: Books, x: Record)
    requires Sound(r0, epoch, q, b) && Evolves(r0, x.t.probe.ring) && Evolves(r0, r) && Lived(r, epoch, q, x)
    requires x.taken == 0 && x.t.probe.cursor == b.cursor
    ensures var b' := b.(sessions := b.sessions + [x]); Sound(r, epoch, q, b') && Before(b', 0) && Current(b') == x
  {
    var b' := b.(sessions := b.sessions + [x]);
    assert b.placed ==> b.ledger.pos <= r0.Head();
    SoundStable(r0, r, epoch, q, b);
    KnownStill(epoch, q, b.ledger, b.sessions, b'.sessions);
    CarriedStill(b.attempts, b.sessions, b'.sessions);
    hide Lived, Tried, Kept, LossesKnown, Carried, CursorStr;
  }

  /** From entry `n` on, a crash with between `lo` and `hi` sessions before it. */
  ghost predicate CrashIn(crashes: seq<nat>, n: nat, lo: nat, hi: nat) {
    exists i :: n <= i < |crashes| && lo <= crashes[i] <= hi
  }

  /** Since `b`, every position the agent held before session `k` was lost in a crash. */
  ghost predicate Forgot(b: Books, b': Books, k: nat)
    requires k <= |b'.sessions|
  {
    && (b.placed ==> CrashIn(b'.crashes, |b.crashes|, |b.sessions|, k))
    && forall j :: |b.sessions| <= j < k && b'.sessions[j].taken > 0 ==> CrashIn(b'.crashes, |b.crashes|, j + 1, k)
  }

  /** The promise starts anew in session `k`: it opened from the first state file, all earlier positions were lost in
      crashes, and none had been saved. */
  ghost predicate RestartsIn(b: Books, b': Books, k: nat)
    requires k < |b'.sessions|
  {
    && |b.sessions| <= k && StartsAt(b'.sessions[k], b'.initial, b'.ledger.start) && Forgot(b, b', k)
    && !b.filePlaced && forall i :: |b.saves| <= i < |b'.saves| ==> b'.saves[i] > k
  }

  /** Where the promise starts: where it did, or anew in one of the sessions since. */
  ghost predicate StartKept(b: Books, b': Books) {
    if b'.placed
    then (b.placed && b'.ledger.start == b.ledger.start) || exists k :: 0 <= k < |b'.sessions| && RestartsIn(b, b', k)
    else Forgot(b, b', |b'.sessions|) && !b'.filePlaced
  }

  /** What any number of turns keeps, crashes included: the records are only added to, each session opened on a ring later
      than `r`; a saved position stays one, and the promise goes on from where it started. */
  ghost predicate Progress(r: Ring, b: Books, b': Books) {
    && b'.initial == b.initial && b.attempts <= b'.attempts && b.sessions <= b'.sessions && b.crashes <= b'.crashes
    && (forall k :: |b.sessions| <= k < |b'.sessions| ==> Evolves(r, b'.sessions[k].t.probe.ring))
    && Saves(b, b') && (forall i :: |b.saves| <= i < |b'.saves| ==> b'.saves[i] > |b.sessions|)
    && (b.filePlaced ==> b.placed && b'.ledger.start == b.ledger.start)
    && StartKept(b, b')
  }

  lemma ProgressReflexive(r: Ring, epoch: nat, q: Query, b: Books)
    requires Sound(r, epoch, q, b)
    ensures Progress(r, b, b)
  {
    hide AllLived, LossesKnown, Carried, Tried, Kept;
  }

  lemma ForgotStill(a: Books, b: Books, c: Books, k: nat)
    requires k <= |b.sessions| && b.sessions <= c.sessions && b.crashes <= c.crashes && Forgot(a, b, k)
    ensures Forgot(a, c, k)
  {
    CrashStill(b.crashes, c.crashes, |a.crashes|, |a.sessions|, k);
    forall j | |a.sessions| <= j < k && c.sessions[j].taken > 0 ensures CrashIn(c.crashes, |a.crashes|, j + 1, k) {
      assert c.sessions[j] == b.sessions[j];
      CrashStill(b.crashes, c.crashes, |a.crashes|, j + 1, k);
    }
  }

  lemma CrashStill(crashes: seq<nat>, crashes': seq<nat>, n: nat, lo: nat, hi: nat)
    requires crashes <= crashes'
    ensures CrashIn(crashes, n, lo, hi) ==> CrashIn(crashes', n, lo, hi)
  {
    if CrashIn(crashes, n, lo, hi) {
      var i :| n <= i < |crashes| && lo <= crashes[i] <= hi;
      assert crashes'[i] == crashes[i];
    }
  }

  lemma CrashWider(crashes: seq<nat>, n: nat, n': nat, lo: nat, hi: nat, lo': nat, hi': nat)
    requires CrashIn(crashes, n, lo, hi) && n' <= n && lo' <= lo && hi <= hi'
    ensures CrashIn(crashes, n', lo', hi')
  {
  }

  /** Forgetting in two stages: what was held by `b` is forgotten by session `k`, so what was held before is too. */
  lemma ForgotTransitive(r: Ring, r': Ring, a: Books, b: Books, c: Books, k: nat)
    requires Progress(r, a, b) && Progress(r', b, c) && |b.sessions| <= k <= |c.sessions| && Forgot(b, c, k)
    ensures Forgot(a, c, k)
  {
    hide CrashIn, StartsAt;
    var n := |b.sessions|;
    if b.placed {
      assert CrashIn(c.crashes, |b.crashes|, n, k);
      CrashWider(c.crashes, |b.crashes|, |a.crashes|, n, k, |a.sessions|, k);
    } else {
      ForgotStill(a, b, c, n);
      if a.placed {
        CrashWider(c.crashes, |a.crashes|, |a.crashes|, |a.sessions|, n, |a.sessions|, k);
      }
    }
    forall j | |a.sessions| <= j < k && c.sessions[j].taken > 0 ensures CrashIn(c.crashes, |a.crashes|, j + 1, k) {
      if j >= n {
        CrashWider(c.crashes, |b.crashes|, |a.crashes|, j + 1, k, j + 1, k);
      } else if b.placed {
        CrashWider(c.crashes, |b.crashes|, |a.crashes|, n, k, j + 1, k);
      } else {
        assert CrashIn(c.crashes, |a.crashes|, j + 1, n);
        CrashWider(c.crashes, |a.crashes|, |a.crashes|, j + 1, n, j + 1, k);
      }
    }
  }

  lemma StartKeptTransitive(r: Ring, r': Ring, a: Books, b: Books, c: Books)
    requires Progress(r, a, b) && Progress(r', b, c)
    ensures StartKept(a, c)
  {
    hide CrashIn, StartsAt, Forgot;
    if !c.placed {
      ForgotTransitive(r, r', a, b, c, |c.sessions|);
    } else if b.placed && c.ledger.start == b.ledger.start {
      if !(a.placed && b.ledger.start == a.ledger.start) {
        var k :| 0 <= k < |b.sessions| && RestartsIn(a, b, k);
        ForgotStill(a, b, c, k);
        assert c.sessions[k] == b.sessions[k];
        assert RestartsIn(a, c, k);
      }
    } else {
      var k :| 0 <= k < |c.sessions| && RestartsIn(b, c, k);
      ForgotTransitive(r, r', a, b, c, k);
      assert RestartsIn(a, c, k);
    }
  }

  lemma ProgressTransitive(r: Ring, r': Ring, a: Books, b: Books, c: Books)
    requires Evolves(r, r') && Progress(r, a, b) && Progress(r', b, c)
    ensures Progress(r, a, c)
  {
    StartKeptTransitive(r, r', a, b, c);
    hide StartKept;
    forall k | |a.sessions| <= k < |c.sessions| ensures Evolves(r, c.sessions[k].t.probe.ring) {
      if k < |b.sessions| {
        assert c.sessions[k] == b.sessions[k];
      }
    }
  }

  lemma CrashProgress(r: Ring, epoch: nat, q: Query, b: Books)
    requires Sound(r, epoch, q, b)
    ensures Progress(r, b, Crashed(b))
  {
    hide AllLived, LossesKnown, Carried, Tried, Kept;
    var b' := Crashed(b);
    assert b'.crashes[|b.crashes|] == |b.sessions|;
    assert CrashIn(b'.crashes, |b.crashes|, |b.sessions|, |b.sessions|);
  }

  /** Consuming frames of a session that has just joined the books is progress. */
  lemma SessionProgress(r: Ring, epoch: nat, q: Query, b: Books, x: Record, b': Books)
    requires Sound(r, epoch, q, b) && Evolves(r, x.t.probe.ring) && Onward(b.(sessions := b.sessions + [x]), b')
    requires x.taken == 0 && (Current(b').taken > 0 ==> b'.placed) && (b'.filePlaced ==> b'.placed)
    ensures Progress(r, b, b') && |b'.sessions| == |b.sessions| + 1
    ensures b'.sessions[|b.sessions|] == x.(taken := b'.sessions[|b.sessions|].taken)
  {
    hide AllLived, LossesKnown, Tried, Kept, StartsAt, Sound;
    var b1, n := b.(sessions := b.sessions + [x]), |b.sessions|;
    assert b.filePlaced ==> b.placed by { FilePlacedIsPlaced(r, epoch, q, b); }
    assert Current(b') == b'.sessions[n];
    if b'.placed && !b.placed {
      assert RestartsIn(b, b', n);
    }
  }

  lemma FilePlacedIsPlaced(r: Ring, epoch: nat, q: Query, b: Books)
    requires Sound(r, epoch, q, b)
    ensures b.filePlaced ==> b.placed
  {
  }

  /** Where a session opened: at the head when asked for without a cursor, never past the head of its ring, and from an
      own position on without skipping a matching event, unless flagged. */
  lemma StartIsPlaced(r: Ring, epoch: nat, q: Query, x: Record)
    requires epoch < U64_LIMIT && Lived(r, epoch, q, x)
    ensures x.h.origin <= x.t.probe.ring.Head() <= r.Head()
    ensures x.t.probe.cursor.None? ==> x.h.origin == x.t.probe.ring.Head()
    ensures ResumesFrom(x.t.probe.ring.Head(), r, epoch, q, x.t.probe.cursor, x.h.origin, x.t.probe.out.truncated)
  {
    hide Faithful, Reads, WereRead, LostBy, ResumesFrom;
    OpeningResumes(r, epoch, q, x.t.probe);
  }

  /** End to end: whatever is in the agent's file, every matching event since the start and up to it is accounted for. */
  lemma PromiseOfBooks(r: Ring, epoch: nat, q: Query, b: Books)
    requires epoch < U64_LIMIT && Sound(r, epoch, q, b)
    ensures b.filePlaced ==> AtLeastOnce(r, epoch, q, b.ledger.start, b.attempts, b.sessions, b.filePos)
    ensures Carried(b.attempts, b.sessions) && AllLived(r, epoch, q, b.sessions)
    ensures b.filePlaced ==> b.file == Some(CursorStr(epoch, b.filePos)) && b.ledger.start <= b.filePos <= r.Head()
  {
    hide AllLived, LossesKnown, Tried, Carried, AtLeastOnce, CursorStr;
    if b.filePlaced {
      assert Kept(r, q, b.ledger, b.filePos);
      PromiseMeans(r, epoch, q, b.ledger, b.attempts, b.sessions, b.filePos);
    }
  }

  /** What becomes of a turn of the main loop: a crash and a restart, a stream that does not open, or a session of which
      `take` frames reach the agent. */
  datatype Fate = Crashes | NotOpened | Streams(replayBudget: nat, arms: seq<Arm>, take: nat)

  function Streamed(fates: seq<Fate>): nat {
    if fates == [] then 0 else Streamed(fates[..|fates| - 1]) + if fates[|fates| - 1].Streams? then 1 else 0
  }

  class Agent {
    const buf: EventBuffer
    const name: string
    const q: Query
    var cursor: Option<string>
    var file: Option<string>
    var failures: Option<(string, nat)>
    ghost const initial: Option<string>
    ghost var placed: bool
    ghost var filePlaced: bool
    ghost var filePos: nat
    ghost var ledger: Ledger
    ghost var attempts: seq<Attempt>
    ghost var sessions: seq<Record>
    ghost var crashes: seq<nat>
    ghost var saves: seq<nat>

    ghost function Accounts(): Books
      reads this
    {
      Books(cursor, file, failures, initial, placed, filePlaced, filePos, ledger, attempts, sessions, crashes, saves)
    }

    ghost predicate Inv()
      reads this, buf
    {
      buf.Valid() && Sound(buf.RingOf(name), buf.epoch, q, Accounts())
    }

    /** Starts from the persisted state; `at` is its position when it is an own-epoch cursor not past the head. */
    constructor (buf: EventBuffer, name: string, q: Query, file: Option<string>, ghost at: Option<nat>)
      requires buf.Valid()
      requires at.Some? ==> file == Some(CursorStr(buf.epoch, at.value)) && at.value <= buf.RingOf(name).Head()
      ensures Inv() && this.buf == buf && this.name == name && this.q == q && this.file == file && initial == file
      ensures attempts == [] && sessions == [] && crashes == [] && saves == []
      ensures placed == filePlaced == at.Some? && (at.Some? ==> ledger.start == at.value)
    {
      hide EventBuffer.Valid, EventBuffer.RingOf;
      this.buf, this.name, this.q := buf, name, q;
      this.file, cursor, failures, initial := file, file, None, file;
      placed, filePlaced := at.Some?, at.Some?;
      filePos := if at.Some? then at.value else 0;
      ledger := Ledger(if at.Some? then at.value else 0, if at.Some? then at.value else 0, {}, {}, {}, {});
      attempts, sessions, crashes, saves := [], [], [], [];
    }

    method Persist(c: string) returns (saved: bool)
      modifies this`cursor, this`file, this`filePlaced, this`filePos, this`saves
      ensures Accounts() == Persisted(old(Accounts()), c, saved)
    {
      cursor := Some(c);
      saved := *;
      if saved {
        file := Some(c);
        filePlaced, filePos, saves := placed, ledger.pos, saves + [|sessions|];
      }
    }

    method Crash()
      modifies this`cursor, this`failures, this`placed, this`ledger, this`crashes
      ensures Accounts() == Crashed(old(Accounts()))
    {
      cursor := file;
      failures := None;
      placed := filePlaced;
      ledger := ledger.(pos := filePos);
      crashes := crashes + [|sessions|];
    }

    /** The bookkeeping for an event frame whose handler succeeded or not; `done` says whether the cursor may move past it. */
    method HandleEvent(occ: EventOccurrence, success: bool, ghost s: nat) returns (done: bool)
      modifies this`failures, this`ledger, this`attempts
      ensures (Accounts(), done) == Handled(old(Accounts()), s, occ.eventId, success)
      ensures attempts == old(attempts) + [Attempt(s, success)]
      ensures success ==> done && failures.None? && ledger == old(ledger).(handled := old(ledger).handled + {s})
      ensures !success ==>
        var n := 1 + if old(failures).Some? && old(failures).value.0 == occ.eventId then old(failures).value.1 else 0;
        if n < 3 then !done && failures == Some((occ.eventId, n)) && ledger == old(ledger)
        else done && failures.None? && ledger == old(ledger).(skipped := old(ledger).skipped + {s})
    {
      attempts := attempts + [Attempt(s, success)];
      if success {
        failures := None;
        ledger := ledger.(handled := ledger.handled + {s});
        return true;
      }
      var count;
      if failures.Some? && failures.value.0 == occ.eventId {
        count := failures.value.1 + 1;
      } else {
        count := 1;
      }
      failures := Some((occ.eventId, count));
      if count >= MAX_EVENT_ATTEMPTS {
        failures := None;
        ledger := ledger.(skipped := ledger.skipped + {s});
        done := true;
      } else {
        done := false;
      }
    }

    /** Moves past frame `k`, whose event, if it carries one, is settled: takes its cursor over and saves it. */
    method MovePast(c: string, ghost k: nat)
      requires Inv() && Before(Accounts(), k) && k < |Current(Accounts()).h.marks|
      requires c == CursorStr(buf.epoch, Current(Accounts()).h.marks[k].pos)
      requires Current(Accounts()).h.marks[k].Sent? ==> Settled(ledger, Current(Accounts()).h.marks[k].seqNo)
      modifies this`cursor, this`file, this`filePlaced, this`filePos, this`ledger, this`placed, this`sessions, this`saves
      ensures Inv() && Before(Accounts(), k + 1) && Onward(old(Accounts()), Accounts())
      ensures attempts == old(attempts)
    {
      hide Sound, Settled, Before, Onward, Consumed, CursorStr, EventBuffer.Valid, EventBuffer.RingOf;
      ghost var r := buf.RingOf(name);
      ghost var b := Accounts();
      BeforeTaken(b, k);
      CurrentLived(r, buf.epoch, q, b);
      ghost var b1 := Consumed(r, q, b, k);
      ConsumedOnly(r, q, b, k);
      ledger, placed, sessions := b1.ledger, b1.placed, b1.sessions;
      var saved := Persist(c);
      SoundAfterFrame(r, buf.epoch, q, b, k, saved);
    }

    /** Consumes one frame; `stop` when the event is to be retried on a new connection or the stream ended. */
    method ConsumeOne(f: Frame, ghost k: nat) returns (stop: bool)
      requires Inv() && Before(Accounts(), k) && k < |Current(Accounts()).h.marks|
      requires FrameIs(buf.RingOf(name), buf.epoch, name, f, Current(Accounts()).h.marks[k])
      modifies this
      ensures Inv() && Onward(old(Accounts()), Accounts()) && Before(Accounts(), if stop then k else k + 1)
      ensures if f.EventFrame? then TriedOnce(old(Accounts()), Accounts(), old(Current(Accounts())).h.marks[k].seqNo, stop)
              else attempts == old(attempts) && stop == f.Closed?
    {
      hide Sound, Before, Onward, TriedOnce, CursorStr, EventBuffer.Valid, EventBuffer.RingOf;
      match f {
        case Active(c, _) =>
          MovePast(c, k);
          stop := false;
        case Heartbeat(c) =>
          MovePast(c, k);
          stop := false;
        case EventFrame(occ) =>
          stop := ConsumeEvent(occ, k);
        case Closed =>
          BeforeTaken(Accounts(), k);
          stop := true;
      }
    }

    method ConsumeEvent(occ: EventOccurrence, ghost k: nat) returns (stop: bool)
      requires Inv() && Before(Accounts(), k) && k < |Current(Accounts()).h.marks|
      requires Current(Accounts()).h.marks[k].Sent?
      requires FrameIs(buf.RingOf(name), buf.epoch, name, EventFrame(occ), Current(Accounts()).h.marks[k])
      modifies this
      ensures Inv() && Onward(old(Accounts()), Accounts()) && Before(Accounts(), if stop then k else k + 1)
      ensures TriedOnce(old(Accounts()), Accounts(), old(Current(Accounts())).h.marks[k].seqNo, stop)
    {
      hide Sound, Before, Onward, CursorStr, EventBuffer.Valid, EventBuffer.RingOf;
      ghost var b := Accounts();
      BeforeTaken(b, k);
      ghost var s := Current(b).h.marks[k].seqNo;
      CurrentFrame(b, k);
      var success: bool := *;
      var done := HandleEvent(occ, success, s);
      SoundAfterHandling(buf.RingOf(name), buf.epoch, q, b, s, success);
      HandledOnward(b, Accounts(), k);
      if !done {
        return true;
      }
      ghost var b1 := Accounts();
      MovePast(occ.cursor.value, k);
      OnwardTransitive(b, b1, Accounts());
      stop := false;
    }

    /** Consumes up to `take` frames of the current session, in order; stops where the stream dies or an event is to be
        retried. */
    method ConsumeFrames(frames: seq<Frame>, take: nat)
      requires Inv() && Before(Accounts(), 0) && |frames| == |Current(Accounts()).h.marks|
      requires forall k :: 0 <= k < |frames| ==>
        FrameIs(buf.RingOf(name), buf.epoch, name, frames[k], Current(Accounts()).h.marks[k])
      modifies this
      ensures Inv() && Onward(old(Accounts()), Accounts())
      ensures Current(Accounts()).taken <= take && (Current(Accounts()).taken > 0 ==> placed)
      ensures StoppedRightly(frames, take, old(Accounts()), Accounts())
    {
      hide Sound, Before, Onward, FrameIs, CursorStr, EventBuffer.Valid, EventBuffer.RingOf;
      ghost var b := Accounts();
      BeforeTaken(b, 0);
      for k := 0 to |frames|
        invariant Inv() && Before(Accounts(), k) && Onward(b, Accounts()) && k <= take
      {
        OnwardSame(b, Accounts());
        BeforeTaken(Accounts(), k);
        if k >= take {
          return;
        }
        ghost var b1 := Accounts();
        var stop := ConsumeOne(frames[k], k);
        OnwardTransitive(b, b1, Accounts());
        if stop {
          BeforeTaken(Accounts(), k);
          FrameKind(buf.RingOf(name), buf.epoch, name, frames[k], Current(b1).h.marks[k]);
          TriedLast(b, b1, Accounts(), frames[k], k);
          return;
        }
      }
      BeforeTaken(Accounts(), |frames|);
    }

    /** One connection: the server runs a session from the agent's cursor, the agent consumes what reaches it. */
    method Connect(replayBudget: nat, arms: seq<Arm>, take: nat)
      requires Inv()
      modifies this, buf
      ensures Inv() && Evolves(old(buf.RingOf(name)), buf.RingOf(name))
      ensures Progress(old(buf.RingOf(name)), old(Accounts()), Accounts())
      ensures |sessions| == |old(sessions)| + 1 && sessions[|sessions| - 1].taken <= take
      ensures sessions[|sessions| - 1].taken == 0 ==> take == 0
      ensures sessions[|sessions| - 1].t.probe.cursor == old(cursor)
    {
      hide Sound, Before, Lived, Onward, Progress, CursorStr, Session, Traced, EventBuffer.Valid, EventBuffer.RingOf;
      ghost var r0 := buf.RingOf(name);
      ghost var b := Accounts();
      var session := new EventStream(buf, name, cursor, None, q);
      ghost var r1 := buf.RingOf(name);
      session.Run(replayBudget, arms);
      ghost var r := buf.RingOf(name);
      ghost var x := Record(session.h, session.t, session.p, 0);
      SessionLived(r, buf.epoch, name, q, session.cur, session.frames, x);
      SessionJoins(r0, r, buf.epoch, q, b, x);
      sessions := sessions + [x];
      ConsumeFrames(session.frames, take);
      FilePlacedIsPlaced(r, buf.epoch, q, Accounts());
      SessionProgress(r0, buf.epoch, q, b, x, Accounts());
    }

    /** One turn of the main loop, or a crash and a restart. */
    method Turn(fate: Fate)
      requires Inv()
      modifies this, buf
      ensures Inv() && Evolves(old(buf.RingOf(name)), buf.RingOf(name))
      ensures Progress(old(buf.RingOf(name)), old(Accounts()), Accounts())
      ensures |sessions| == |old(sessions)| + if fate.Streams? then 1 else 0
    {
      hide Sound, Progress, CursorStr, EventBuffer.Valid, EventBuffer.RingOf;
      var others: nat := *;
      ghost var r0, b := buf.RingOf(name), Accounts();
      buf.Interfere(others);
      ghost var r := buf.RingOf(name);
      SoundStable(r0, r, buf.epoch, q, b);
      ProgressReflexive(r0, buf.epoch, q, b);
      match fate {
        case Crashes =>
          SoundAfterCrash(r, buf.epoch, q, b);
          CrashProgress(r, buf.epoch, q, b);
          Crash();
        case NotOpened =>
          ProgressReflexive(r, buf.epoch, q, b);
        case Streams(replayBudget, arms, take) =>
          Connect(replayBudget, arms, take);
      }
      ProgressTransitive(r0, r, b, b, Accounts());
    }

    /** The agent's main loop: connect, consume, reconnect; it may crash and be restarted at any point. The promise runs
        from the persisted position the agent started with; without one, from where a session opened that was asked for
        with the first state file's cursor. */
    method RunAgent(fates: seq<Fate>)
      requires Inv()
      modifies this, buf
      ensures Inv() && Evolves(old(buf.RingOf(name)), buf.RingOf(name))
      ensures filePlaced ==> AtLeastOnce(buf.RingOf(name), buf.epoch, q, ledger.start, attempts, sessions, filePos)
      ensures filePlaced ==> file == Some(CursorStr(buf.epoch, filePos)) && ledger.start <= filePos <= buf.RingOf(name).Head()
      ensures Progress(old(buf.RingOf(name)), old(Accounts()), Accounts()) && |sessions| == |old(sessions)| + Streamed(fates)
      ensures AllLived(buf.RingOf(name), buf.epoch, q, sessions) && Carried(attempts, sessions)
    {
      hide Sound, Progress, AtLeastOnce, CursorStr, EventBuffer.Valid, EventBuffer.RingOf;
      ghost var r0, b := buf.RingOf(name), Accounts();
      ProgressReflexive(r0, buf.epoch, q, b);
      for c := 0 to |fates|
        invariant Inv() && Evolves(r0, buf.RingOf(name)) && Progress(r0, b, Accounts())
        invariant |sessions| == |old(sessions)| + Streamed(fates[..c])
      {
        ghost var r1, b1 := buf.RingOf(name), Accounts();
        assert fates[..c + 1][..c] == fates[..c];
        Turn(fates[c]);
        ProgressTransitive(r0, r1, b, b1, Accounts());
      }
      assert fates[..|fates|] == fates;
      PromiseOfBooks(buf.RingOf(name), buf.epoch, q, Accounts());
    }
  }

  lemma SessionLived(r: Ring, epoch: nat, name: string, q: Query, cur: string, frames: seq<Frame>, x: Record)
    requires Session(r, epoch, name, q, cur, x.p, frames, x.h) && Traced(r, epoch, q, x.h, x.t) && x.taken == 0
    requires x.t.probe.age.None?
    ensures Lived(r, epoch, q, x) && |frames| == |x.h.marks|
    ensures forall k :: 0 <= k < |frames| ==> FrameIs(r, epoch, name, frames[k], x.h.marks[k])
  {
    hide Faithful, Traced;
  }
}
