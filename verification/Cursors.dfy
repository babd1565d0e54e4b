/** Option, and the engine's cursor format `<epoch>:<seq>` with the parser that reads it back. */
module Cursors {

  datatype Option<+T> = None | Some(value: T)

  /** One more than the largest value of the source's 64-bit counters. */
  const U64_LIMIT: nat := 0x1_0000_0000_0000_0000

  type u64 = n: nat | n < U64_LIMIT

  predicate IsDigit(c: char) {
    '0' <= c <= '9'
  }

  function RenderDigit(d: nat): (c: char)
    requires d < 10
    ensures IsDigit(c) && DigitValue(c) == d
  {
    '0' + d as char
  }

  function DigitValue(c: char): nat
    requires IsDigit(c)
  {
    (c - '0') as nat
  }

  predicate AllDigits(s: string) {
    forall i :: 0 <= i < |s| ==> IsDigit(s[i])
  }

  /** Decimal rendering without leading zeros. */
  function RenderNat(n: nat): (s: string)
    ensures s != [] && AllDigits(s)
  {
    if n < 10 then [RenderDigit(n)] else RenderNat(n / 10) + [RenderDigit(n % 10)]
  }

  function DecimalValue(s: string): nat
    requires AllDigits(s)
  {
    if s == [] then 0 else 10 * DecimalValue(s[..|s| - 1]) + DigitValue(s[|s| - 1])
  }

  lemma {:induction false} RenderedValue(n: nat)
    ensures DecimalValue(RenderNat(n)) == n
  {
    if n >= 10 {
      RenderedValue(n / 10);
      var s := RenderNat(n / 10);
      assert (s + [RenderDigit(n % 10)])[..|s|] == s;
    }
  }

  /** Parsing of an unsigned 64-bit integer: an optional `+`, then at least one digit, no overflow. */
  function ParseU64(s: string): Option<nat> {
    var digits := if |s| > 0 && s[0] == '+' then s[1..] else s;
    if digits == [] || !AllDigits(digits) || DecimalValue(digits) >= U64_LIMIT then None
    else Some(DecimalValue(digits))
  }

  /** The text before and after the first colon. */
  function SplitAtColon(s: string): Option<(string, string)> {
    if s == [] then None
    else if s[0] == ':' then Some(("", s[1..]))
    else
      match SplitAtColon(s[1..])
      case None => None
      case Some((before, after)) => Some(([s[0]] + before, after))
  }

  lemma {:induction false} SplitRendered(a: string, b: string)
    requires ':' !in a
    ensures SplitAtColon(a + ":" + b) == Some((a, b))
  {
    var s := a + ":" + b;
    if a == [] {
      assert s == [':'] + b;
    } else {
      SplitRendered(a[1..], b);
      assert s[1..] == a[1..] + ":" + b;
      assert [a[0]] + a[1..] == a;
    }
  }

  function CursorStr(epoch: nat, pos: nat): string {
    RenderNat(epoch) + ":" + RenderNat(pos)
  }

  function ParseCursor(s: string): Option<(nat, nat)> {
    match SplitAtColon(s)
    case None => None
    case Some((e, p)) =>
      match (ParseU64(e), ParseU64(p))
      case (Some(epoch), Some(pos)) => Some((epoch, pos))
      case _ => None
  }

  /** The position inside a cursor, whatever its epoch says. */
  function ParseSeq(cursor: string): Option<nat> {
    match SplitAtColon(cursor)
    case None => None
    case Some((_, p)) => ParseU64(p)
  }

  /** The position inside a cursor, 0 when it does not parse. */
  function SeqOf(cursor: string): nat {
    match ParseSeq(cursor) case Some(pos) => pos case None => 0
  }

  /** A rendered cursor parses back to the epoch and position it was rendered from. */
  lemma CursorRoundTrip(epoch: nat, pos: nat)
    requires epoch < U64_LIMIT && pos < U64_LIMIT
    ensures ParseCursor(CursorStr(epoch, pos)) == Some((epoch, pos))
    ensures ParseSeq(CursorStr(epoch, pos)) == Some(pos) && SeqOf(CursorStr(epoch, pos)) == pos
  {
    RenderedValue(epoch);
    RenderedValue(pos);
    SplitRendered(RenderNat(epoch), RenderNat(pos));
  }

  // ----- which strings are cursors -----

  lemma {:induction false} SplitIff(s: string, a: string, b: string)
    ensures SplitAtColon(s) == Some((a, b)) <==> s == a + ":" + b && ':' !in a
  {
    if s == a + ":" + b && ':' !in a {
      SplitRendered(a, b);
    }
    if SplitAtColon(s) == Some((a, b)) {
      SplitJoins(s);
    }
  }

  lemma {:induction false} SplitJoins(s: string)
    ensures SplitAtColon(s).None? <==> ':' !in s
    ensures SplitAtColon(s).Some? ==>
      s == SplitAtColon(s).value.0 + ":" + SplitAtColon(s).value.1 && ':' !in SplitAtColon(s).value.0
  {
    if s != [] {
      assert s == [s[0]] + s[1..];
      if s[0] == ':' {
        assert s == "" + ":" + s[1..];
      } else {
        SplitJoins(s[1..]);
        if SplitAtColon(s[1..]).Some? {
          var (x, y) := SplitAtColon(s[1..]).value;
          assert [s[0]] + (x + ":" + y) == [s[0]] + x + ":" + y;
        }
      }
    }
  }

  /** A text stands for a number of 64 bits: digits, possibly after a plus sign. */
  ghost predicate Denotes(t: string, n: nat) {
    n < 18_446_744_073_709_551_616 &&
    exists d: string :: d != "" && AllDigits(d) && DecimalValue(d) == n && (t == d || t == "+" + d)
  }

  lemma U64Iff(t: string, n: nat)
    ensures ParseU64(t) == Some(n) <==> Denotes(t, n)
  {
    hide DecimalValue;
    var digits := if |t| > 0 && t[0] == '+' then t[1..] else t;
    if ParseU64(t) == Some(n) {
      assert t == digits || t == "+" + digits;
    }
    if Denotes(t, n) {
      var d: string :| d != "" && AllDigits(d) && DecimalValue(d) == n && (t == d || t == "+" + d);
      assert IsDigit(d[0]);
      assert digits == d by {
        if t != d {
          assert t[0] == '+' && t[1..] == d;
        }
      }
    }
  }

  /** A cursor is read as an epoch and a position exactly when it is two such numbers around its first colon. */
  lemma ParsesIff(s: string, epoch: nat, pos: nat)
    ensures ParseCursor(s) == Some((epoch, pos)) <==>
      exists a: string, b: string :: s == a + ":" + b && ':' !in a && Denotes(a, epoch) && Denotes(b, pos)
  {
    hide Denotes, ParseU64;
    SplitJoins(s);
    if SplitAtColon(s).Some? {
      var (x, y) := SplitAtColon(s).value;
      U64Iff(x, epoch);
      U64Iff(y, pos);
      forall a: string, b: string | s == a + ":" + b && ':' !in a ensures a == x && b == y {
        SplitIff(s, a, b);
      }
      assert s == x + ":" + y;
    } else {
      forall a: string, b: string ensures s != a + ":" + b {
        assert (a + ":" + b)[|a|] == ':';
      }
    }
  }

  /** A rendered number has no leading zero and reads from its most significant digit on. */
  lemma {:induction false} NoLeadingZero(n: nat)
    ensures RenderNat(n)[0] == '0' <==> n == 0
    ensures n == 0 ==> RenderNat(n) == "0"
    ensures n >= 10 ==> |RenderNat(n)| > 1 && RenderNat(n)[0] == RenderNat(n / 10)[0]
  {
    if n >= 10 {
      NoLeadingZero(n / 10);
    }
  }
}
