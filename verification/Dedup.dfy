/** The bounded LRU set that suppresses duplicate event ids. */
module Dedup {

  function Without(s: seq<string>, k: string): seq<string> {
    if s == [] then []
    else if s[0] == k then Without(s[1..], k)
    else [s[0]] + Without(s[1..], k)
  }

  lemma {:induction false} WithoutMembers(s: seq<string>, k: string)
    ensures forall x :: x in Without(s, k) <==> x in s && x != k
  {
    if s != [] {
      WithoutMembers(s[1..], k);
    }
  }

  /** The distinct keys of an access history in order of last use, most recent last. */
  function Recency(history: seq<string>): seq<string> {
    if history == [] then []
    else Without(Recency(history[..|history| - 1]), history[|history| - 1]) + [history[|history| - 1]]
  }

  function LastN(s: seq<string>, n: nat): seq<string> {
    if |s| <= n then s else s[|s| - n..]
  }

  function Elements(s: seq<string>): set<string> {
    set k | k in s
  }

  predicate NoRepeats(s: seq<string>) {
    forall i, j :: 0 <= i < j < |s| ==> s[i] != s[j]
  }

  lemma {:induction false} WithoutNoRepeats(s: seq<string>, k: string)
    requires NoRepeats(s)
    ensures NoRepeats(Without(s, k))
  {
    if s != [] {
      WithoutNoRepeats(s[1..], k);
      WithoutMembers(s[1..], k);
      if s[0] != k {
        var rest := Without(s[1..], k);
        forall j | 0 <= j < |rest| ensures rest[j] != s[0] {
          assert rest[j] in rest;
          var i :| 0 <= i < |s| - 1 && s[1..][i] == rest[j];
          assert s[i + 1] == rest[j];
        }
      }
    }
  }

  /** `Recency` is what it claims to be: exactly the keys used, each once. */
  lemma {:induction false} RecencyMembers(history: seq<string>)
    ensures NoRepeats(Recency(history))
    ensures forall k :: k in Recency(history) <==> k in history
  {
    if history != [] {
      var front, k := history[..|history| - 1], history[|history| - 1];
      RecencyMembers(front);
      WithoutNoRepeats(Recency(front), k);
      WithoutMembers(Recency(front), k);
      assert front + [k] == history;
      var rest := Without(Recency(front), k);
      forall i | 0 <= i < |rest| ensures rest[i] != k {
        assert rest[i] in rest;
      }
    }
  }

  /** The last use of a key, as an index into the history. */
  function LastUse(history: seq<string>, k: string): (n: nat)
    requires k in history
    ensures n < |history| && history[n] == k
    ensures forall i :: n < i < |history| ==> history[i] != k
  {
    if history[|history| - 1] == k then |history| - 1
    else assert k in history[..|history| - 1]; LastUse(history[..|history| - 1], k)
  }

  /** And they are in order of last use. */
  lemma {:induction false} RecencyOrder(history: seq<string>, i: nat, j: nat)
    requires i < j < |Recency(history)|
    ensures Recency(history)[i] in history && Recency(history)[j] in history
    ensures LastUse(history, Recency(history)[i]) < LastUse(history, Recency(history)[j])
  {
    RecencyMembers(history);
    var r := Recency(history);
    assert r[i] in r && r[j] in r;
    var front, k := history[..|history| - 1], history[|history| - 1];
    var rest := Without(Recency(front), k);
    WithoutMembers(Recency(front), k);
    assert r[i] == rest[i] && rest[i] in rest;
    RecencyMembers(front);
    if j < |rest| {
      assert r[j] == rest[j] && rest[j] in rest;
      var i', j' := WithoutOrder(Recency(front), k, i, j);
      RecencyOrder(front, i', j');
    }
  }

  lemma {:induction false} WithoutOrder(s: seq<string>, k: string, i: nat, j: nat) returns (i': nat, j': nat)
    requires i < j < |Without(s, k)|
    ensures i' < j' < |s| && s[i'] == Without(s, k)[i] && s[j'] == Without(s, k)[j]
  {
    if s[0] == k {
      var a, b := WithoutOrder(s[1..], k, i, j);
      i', j' := a + 1, b + 1;
    } else if i == 0 {
      WithoutMembers(s[1..], k);
      assert Without(s, k)[j] == Without(s[1..], k)[j - 1];
      assert Without(s[1..], k)[j - 1] in Without(s[1..], k);
      var b :| 0 <= b < |s| - 1 && s[1..][b] == Without(s, k)[j];
      i', j' := 0, b + 1;
    } else {
      var a, b := WithoutOrder(s[1..], k, i - 1, j - 1);
      i', j' := a + 1, b + 1;
    }
  }

  lemma {:induction false} WithoutSplit(s: seq<string>, k: string, pos: nat)
    requires NoRepeats(s) && pos < |s| && s[pos] == k
    ensures Without(s, k) == s[..pos] + s[pos + 1..]
  {
    if pos == 0 {
      WithoutAbsent(s[1..], k);
    } else {
      WithoutSplit(s[1..], k, pos - 1);
    }
  }

  lemma {:induction false} WithoutAbsent(s: seq<string>, k: string)
    requires forall i :: 0 <= i < |s| ==> s[i] != k
    ensures Without(s, k) == s
  {
    if s != [] {
      WithoutAbsent(s[1..], k);
    }
  }

  lemma WithoutNil(k: string)
    ensures Without([], k) == []
  {
  }

  lemma WithoutCons(x: string, s: seq<string>, k: string)
    ensures Without([x] + s, k) == if x == k then Without(s, k) else [x] + Without(s, k)
  {
    assert ([x] + s)[1..] == s;
  }

  lemma {:induction false} WithoutConcat(a: seq<string>, b: seq<string>, k: string)
    ensures Without(a + b, k) == Without(a, k) + Without(b, k)
  {
    hide Without;
    WithoutNil(k);
    if a == [] {
      assert a + b == b;
    } else {
      WithoutConcat(a[1..], b, k);
      WithoutCons(a[0], a[1..] + b, k);
      WithoutCons(a[0], a[1..], k);
      assert a + b == [a[0]] + (a[1..] + b) && a == [a[0]] + a[1..];
    }
  }

  lemma RecencyAppend(history: seq<string>, k: string)
    ensures Recency(history + [k]) == Without(Recency(history), k) + [k]
  {
    assert (history + [k])[..|history|] == history;
  }

  lemma LastOfConcat(a: seq<string>, b: seq<string>, n: nat)
    requires |b| == n || (a == [] && |b| <= n)
    ensures LastN(a + b, n) == b
  {
  }

  /** The recent window after a hit: its key moves to the end. */
  lemma WindowHit(recent: seq<string>, k: string, cap: nat)
    requires NoRepeats(recent) && k in LastN(recent, cap)
    ensures var w := LastN(recent, cap); LastN(Without(recent, k) + [k], cap) == Without(w, k) + [k]
  {
    var w := LastN(recent, cap);
    var dropped := recent[..|recent| - |w|];
    assert recent == dropped + w;
    var i :| 0 <= i < |w| && w[i] == k;
    HitSplit(dropped, w, k, i, cap);
  }

  lemma HitSplit(dropped: seq<string>, w: seq<string>, k: string, i: nat, cap: nat)
    requires NoRepeats(dropped + w) && i < |w| && w[i] == k
    requires |w| == cap || (dropped == [] && |w| <= cap)
    ensures LastN(Without(dropped + w, k) + [k], cap) == Without(w, k) + [k]
  {
    hide Without;
    hide LastN;
    forall j | 0 <= j < |dropped| ensures dropped[j] != k {
      assert (dropped + w)[j] != (dropped + w)[|dropped| + i];
    }
    forall a, b | 0 <= a < b < |w| ensures w[a] != w[b] {
      assert (dropped + w)[|dropped| + a] != (dropped + w)[|dropped| + b];
    }
    WithoutAbsent(dropped, k);
    WithoutConcat(dropped, w, k);
    WithoutSplit(w, k, i);
    var x := Without(w, k);
    assert (dropped + x) + [k] == dropped + (x + [k]);
    LastOfConcat(dropped, x + [k], cap);
  }

  /** After a miss: a full window drops its oldest key. */
  lemma WindowMiss(recent: seq<string>, k: string, cap: nat)
    requires cap >= 1 && k !in LastN(recent, cap)
    ensures var w := LastN(recent, cap);
            LastN(Without(recent, k) + [k], cap) == (if |w| < cap then w else w[1..]) + [k]
  {
    var w := LastN(recent, cap);
    var dropped := recent[..|recent| - |w|];
    assert recent == dropped + w;
    MissSplit(dropped, w, k, cap);
  }

  lemma MissSplit(dropped: seq<string>, w: seq<string>, k: string, cap: nat)
    requires cap >= 1 && k !in w && (|w| == cap || (dropped == [] && |w| < cap))
    ensures LastN(Without(dropped + w, k) + [k], cap) == (if |w| < cap then w else w[1..]) + [k]
  {
    hide Without, LastN;
    WithoutConcat(dropped, w, k);
    WithoutAbsent(w, k);
    WithoutNil(k);
    var front := Without(dropped, k);
    if |w| < cap {
      assert (front + w) + [k] == front + (w + [k]);
      LastOfConcat(front, w + [k], cap);
    } else {
      assert (front + w) + [k] == (front + w[..1]) + (w[1..] + [k]);
      LastOfConcat(front + w[..1], w[1..] + [k], cap);
    }
  }

  lemma LastFacts(s: seq<string>, n: nat)
    requires NoRepeats(s)
    ensures NoRepeats(LastN(s, n)) && |LastN(s, n)| <= n
  {
  }

  lemma RotateKeys(s: seq<string>, pos: nat)
    requires pos < |s|
    ensures Elements(s[..pos] + s[pos + 1..] + [s[pos]]) == Elements(s)
  {
    assert s == s[..pos] + [s[pos]] + s[pos + 1..];
  }

  lemma DropKeys(s: seq<string>)
    requires NoRepeats(s) && s != []
    ensures Elements(s[1..]) == Elements(s) - {s[0]}
  {
    assert s == [s[0]] + s[1..];
  }

  class LruSet {
    var cap: nat
    var keys: set<string>
    var order: seq<string>
    ghost var history: seq<string>

    /** The set and the queue hold exactly the `cap` most recently used distinct keys. */
    ghost predicate Valid()
      reads this
    {
      && cap >= 1
      && order == LastN(Recency(history), cap)
      && keys == Elements(order)
    }

    constructor (cap: nat)
      ensures Valid() && history == [] && this.cap == if cap < 1 then 1 else cap
    {
      this.cap := if cap < 1 then 1 else cap;
      keys := {};
      order := [];
      history := [];
    }

    static method Position(order: seq<string>, key: string) returns (pos: nat)
      requires key in order
      ensures pos < |order| && order[pos] == key
    {
      pos := 0;
      while order[pos] != key
        invariant 0 <= pos < |order|
        invariant forall i :: 0 <= i < pos ==> order[i] != key
        decreases |order| - pos
      {
        pos := pos + 1;
      }
    }

    method CheckAndInsert(key: string) returns (duplicate: bool)
      requires Valid()
      modifies this
      ensures Valid() && cap == old(cap)
      ensures history == old(history) + [key]
      ensures duplicate <==> key in LastN(Recency(old(history)), cap)
    {
      hide Without, Recency, LastN;
      ghost var recent := Recency(history);
      RecencyMembers(history);
      RecencyAppend(history, key);
      LastFacts(recent, cap);
      KeyCount(order);
      history := history + [key];
      if key in keys {
        var pos := Position(order, key);
        WindowHit(recent, key, cap);
        WithoutSplit(order, key, pos);
        RotateKeys(order, pos);
        order := order[..pos] + order[pos + 1..] + [order[pos]];
        return true;
      }
      WindowMiss(recent, key, cap);
      if |keys| >= cap && |order| > 0 {
        var oldest := order[0];
        DropKeys(order);
        order := order[1..];
        keys := keys - {oldest};
      }
      keys := keys + {key};
      order := order + [key];
      duplicate := false;
    }

    /** The set's size, as the source reports it, is the number of recent keys. */
    method Len() returns (n: nat)
      requires Valid()
      ensures n == |LastN(Recency(history), cap)| <= cap
    {
      RecencyMembers(history);
      KeyCount(order);
      n := |keys|;
    }
  }

  lemma {:induction false} KeyCount(s: seq<string>)
    requires NoRepeats(s)
    ensures |Elements(s)| == |s|
  {
    if s != [] {
      KeyCount(s[1..]);
      assert Elements(s) == Elements(s[1..]) + {s[0]};
    }
  }
}
