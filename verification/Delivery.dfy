/** The POSTs of one delivery task: which messages, in which order, and how often. */
module Delivery {
  import opened Cursors
  import opened Log
  import opened Pipeline

  /** The POSTs in a history, in order. */
  function PostsIn(posts: seq<Post>): seq<Post> {
    if posts == [] then []
    else
      var x := posts[|posts| - 1];
      PostsIn(posts[..|posts| - 1]) + if x.Post? then [x] else []
  }

  lemma {:induction false} ResetsAreNotSent(posts: seq<Post>, posts': seq<Post>)
    requires OnlyResets(posts, posts')
    ensures PostsIn(posts') == PostsIn(posts)
    decreases |posts'|
  {
    if |posts'| > |posts| {
      assert posts'[|posts'| - 1].Reset? || posts'[|posts'| - 1].Recorded?;
      ResetsAreNotSent(posts, posts'[..|posts'| - 1]);
    } else {
      assert posts' == posts;
    }
  }

  lemma OneMoreSent(posts: seq<Post>, x: Post)
    ensures PostsIn(posts + [x]) == PostsIn(posts) + if x.Post? then [x] else []
  {
    assert (posts + [x])[..|posts|] == posts;
  }

  /** The first and the last position that a message speaks of. */
  function First(m: Message): nat {
    match m case EventMessage(s, _, _) => s case GapMessage(from, _, _) => from + 1
  }

  function Last(m: Message): nat {
    match m case EventMessage(_, pos, _) => pos case GapMessage(_, pos, _) => pos
  }

  /** The POSTs of one delivery: all of this message, at most four, and a further one only after a failure that is to be
      retried. The delivery is finished exactly when there is nothing left to retry. */
  predicate Tried(tries: seq<Post>, msg: Message, finished: bool) {
    && |tries| <= 4
    && (forall k :: 0 <= k < |tries| ==> tries[k].Post? && tries[k].msg == msg && !tries[k].suspended)
    && (forall k :: 0 <= k < |tries| && (k + 1 < |tries| || !finished) ==> !tries[k].ok && tries[k].retryable)
    && if finished then tries != [] && (var x := tries[|tries| - 1]; x.ok || !x.retryable || |tries| == 4) else |tries| < 4
  }

  /** Between the two points of the history the message was delivered in this way. */
  predicate Delivered(before: seq<Post>, posts: seq<Post>, msg: Message, finished: bool) {
    PostsIn(before) <= PostsIn(posts) && Tried(PostsIn(posts)[|PostsIn(before)|..], msg, finished)
  }

  /** A POST repeats an earlier one that is to be retried, or speaks of later positions only. */
  predicate MayFollow(x: Post, y: Post)
    requires x.Post? && y.Post?
  {
    (x.msg == y.msg && !x.ok && x.retryable) || Last(x.msg) < First(y.msg)
  }

  /** The POSTs of messages between two positions, every event among them one the subscription asks for. */
  predicate Among(q: Query, tries: seq<Post>, lo: nat, hi: Option<nat>) {
    forall k :: 0 <= k < |tries| ==>
      && tries[k].Post? && !tries[k].suspended
      && lo < First(tries[k].msg) <= Last(tries[k].msg) && (hi.Some? ==> Last(tries[k].msg) <= hi.value)
      && (tries[k].msg.EventMessage? ==> q.Matches(tries[k].msg.occ.data))
  }

  /** Sequential delivery: in order of position, and no message more than four times. */
  predicate InOrder(q: Query, tries: seq<Post>, lo: nat, hi: Option<nat>) {
    && Among(q, tries, lo, hi)
    && (forall i, j :: 0 <= i < j < |tries| ==> MayFollow(tries[i], tries[j]))
    && (forall i, j :: 0 <= i && i + 4 <= j < |tries| ==> tries[i].msg != tries[j].msg)
  }

  /** What was POSTed between the two points of the history was in order. */
  predicate Orderly(q: Query, before: seq<Post>, posts: seq<Post>, lo: nat, hi: Option<nat>) {
    PostsIn(before) <= PostsIn(posts) && InOrder(q, PostsIn(posts)[|PostsIn(before)|..], lo, hi)
  }

  lemma NothingSent(q: Query, before: seq<Post>, posts: seq<Post>, lo: nat, hi: Option<nat>)
    requires PostsIn(posts) == PostsIn(before)
    ensures Orderly(q, before, posts, lo, hi)
  {
  }

  /** Only what was sent counts. */
  lemma SameSent(q: Query, a: seq<Post>, a': seq<Post>, b: seq<Post>, b': seq<Post>, lo: nat, hi: Option<nat>)
    requires PostsIn(a) == PostsIn(a') && PostsIn(b) == PostsIn(b') && Orderly(q, a', b, lo, hi)
    ensures Orderly(q, a, b', lo, hi)
  {
  }

  /** One delivery is in order. */
  lemma DeliveredInOrder(q: Query, before: seq<Post>, posts: seq<Post>, msg: Message, finished: bool, lo: nat, hi: Option<nat>)
    requires Delivered(before, posts, msg, finished)
    requires lo < First(msg) <= Last(msg) && (hi.Some? ==> Last(msg) <= hi.value)
    requires msg.EventMessage? ==> q.Matches(msg.occ.data)
    ensures Orderly(q, before, posts, lo, hi)
  {
  }

  /** In order up to a position, and then in order beyond it, is in order. */
  lemma OrderlyThen(q: Query, a: seq<Post>, b: seq<Post>, c: seq<Post>, lo: nat, mid: nat, hi: Option<nat>)
    requires Orderly(q, a, b, lo, Some(mid)) && Orderly(q, b, c, mid, hi) && lo <= mid && (hi.Some? ==> mid <= hi.value)
    ensures Orderly(q, a, c, lo, hi)
  {
    hide PostsIn;
    var xs, ys, all := PostsIn(b)[|PostsIn(a)|..], PostsIn(c)[|PostsIn(b)|..], PostsIn(c)[|PostsIn(a)|..];
    assert all == xs + ys;
    forall i, j | 0 <= i < j < |all| ensures MayFollow(all[i], all[j]) {
      if j < |xs| {
        assert MayFollow(xs[i], xs[j]);
      } else if i >= |xs| {
        assert MayFollow(ys[i - |xs|], ys[j - |xs|]);
      }
    }
    forall i, j | 0 <= i && i + 4 <= j < |all| ensures all[i].msg != all[j].msg {
      if j < |xs| {
        assert xs[i].msg != xs[j].msg;
      } else if i >= |xs| {
        assert ys[i - |xs|].msg != ys[j - |xs|].msg;
      }
    }
  }

  lemma OrderlyWider(q: Query, a: seq<Post>, b: seq<Post>, lo: nat, hi: Option<nat>, lo': nat)
    requires Orderly(q, a, b, lo, hi) && lo' <= lo
    ensures Orderly(q, a, b, lo', None)
  {
    hide PostsIn;
  }

  /** A position spoken of twice is spoken of by one and the same message, within four POSTs in a row of which all but the
      last failed and were to be retried. So nothing is sent again after it was acked or given up. */
  lemma RepeatsAreRetries(q: Query, tries: seq<Post>, lo: nat, hi: Option<nat>, i: nat, j: nat, s: nat)
    requires InOrder(q, tries, lo, hi) && i < j < |tries|
    requires First(tries[i].msg) <= s <= Last(tries[i].msg) && First(tries[j].msg) <= s <= Last(tries[j].msg)
    ensures j < i + 4
    ensures forall k :: i <= k < j ==> tries[k].msg == tries[j].msg && !tries[k].ok && tries[k].retryable
  {
    assert MayFollow(tries[i], tries[j]);
    forall k | i <= k < j ensures tries[k].msg == tries[j].msg && !tries[k].ok && tries[k].retryable {
      assert i < k ==> MayFollow(tries[i], tries[k]);
      assert MayFollow(tries[k], tries[j]);
    }
  }
}
