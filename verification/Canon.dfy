/** Canonical JSON text, the form in which subscription params are compared. */
module Canon {
  import opened Json

  // ----- what a value means: its fields as a map, at every depth -----

  datatype Meaning =
    | Scalar(v: Value)
    | List(items: seq<Meaning>)
    | Record(fields: map<string, Meaning>)

  function MeaningOf(v: Value): Meaning
    decreases v
  {
    match v
    case Array(items) => List(ItemsMeaning(items))
    case Object(fields) => Record(FieldsMeaning(fields))
    case _ => Scalar(v)
  }

  function ItemsMeaning(items: seq<Value>): seq<Meaning>
    decreases items
  {
    if items == [] then [] else [MeaningOf(items[0])] + ItemsMeaning(items[1..])
  }

  function FieldsMeaning(fields: seq<(string, Value)>): map<string, Meaning>
    decreases fields
  {
    if fields == [] then map[]
    else
      assert fields[0].1 < fields[0];
      FieldsMeaning(fields[1..])[fields[0].0 := MeaningOf(fields[0].1)]
  }

  // ----- the values the engine can hold -----

  predicate NumberChar(c: char) {
    '0' <= c <= '9' || c == '-' || c == '+' || c == '.' || c == 'e' || c == 'E'
  }

  predicate NumberToken(t: string) {
    t != "" && forall i :: 0 <= i < |t| ==> NumberChar(t[i])
  }

  /** Object keys are distinct and numbers are rendered tokens, at every depth. */
  predicate WellFormed(v: Value)
    decreases v
  {
    match v
    case Number(token) => NumberToken(token)
    case Array(items) => ItemsWellFormed(items)
    case Object(fields) => FieldsWellFormed(fields)
    case _ => true
  }

  predicate ItemsWellFormed(items: seq<Value>)
    decreases items
  {
    items == [] || (WellFormed(items[0]) && ItemsWellFormed(items[1..]))
  }

  predicate FieldsWellFormed(fields: seq<(string, Value)>)
    decreases fields
  {
    fields == [] ||
    (assert fields[0].1 < fields[0];
     WellFormed(fields[0].1) && fields[0].0 !in FieldsMeaning(fields[1..]) && FieldsWellFormed(fields[1..]))
  }

  function Size(v: Value): (n: nat)
    ensures n > 0
    decreases v
  {
    match v
    case Array(items) => 1 + ItemsSize(items)
    case Object(fields) => 1 + FieldsSize(fields)
    case _ => 1
  }

  function ItemsSize(items: seq<Value>): nat
    decreases items
  {
    if items == [] then 0 else Size(items[0]) + ItemsSize(items[1..])
  }

  function FieldsSize(fields: seq<(string, Value)>): nat
    decreases fields
  {
    if fields == [] then 0
    else
      assert fields[0].1 < fields[0];
      Size(fields[0].1) + FieldsSize(fields[1..])
  }

  // ----- sorting fields by key -----

  /** Strict lexicographic order of keys. */
  predicate Before(a: string, b: string) {
    b != "" && (a == "" || a[0] < b[0] || (a[0] == b[0] && Before(a[1..], b[1..])))
  }

  lemma {:induction false} BeforeTotal(a: string, b: string)
    ensures Before(a, b) || a == b || Before(b, a)
    ensures !(Before(a, b) && Before(b, a))
    ensures a == b ==> !Before(a, b)
  {
    if a != "" && b != "" && a[0] == b[0] {
      BeforeTotal(a[1..], b[1..]);
      assert a == [a[0]] + a[1..] && b == [b[0]] + b[1..];
    }
  }

  lemma {:induction false} BeforeTransitive(a: string, b: string, c: string)
    requires Before(a, b) && Before(b, c)
    ensures Before(a, c)
  {
    if a != "" && a[0] == b[0] && b[0] == c[0] {
      BeforeTransitive(a[1..], b[1..], c[1..]);
    }
  }

  predicate StrictlySorted(fields: seq<(string, Value)>) {
    |fields| < 2 || (Before(fields[0].0, fields[1].0) && StrictlySorted(fields[1..]))
  }

  /** Puts `f` in front of the first field whose key is not before its own. */
  function Insert(f: (string, Value), fields: seq<(string, Value)>): seq<(string, Value)> {
    if fields == [] || !Before(fields[0].0, f.0) then [f] + fields else [fields[0]] + Insert(f, fields[1..])
  }

  /** The fields in key order; equal keys would keep their order. */
  function Sorted(fields: seq<(string, Value)>): (r: seq<(string, Value)>)
    ensures FieldsSize(r) == FieldsSize(fields)
  {
    if fields == [] then []
    else
      InsertSize(fields[0], Sorted(fields[1..]));
      Insert(fields[0], Sorted(fields[1..]))
  }

  lemma {:induction false} InsertSize(f: (string, Value), fields: seq<(string, Value)>)
    ensures FieldsSize(Insert(f, fields)) == Size(f.1) + FieldsSize(fields)
  {
    if fields == [] || !Before(fields[0].0, f.0) {
      assert ([f] + fields)[1..] == fields;
    } else {
      InsertSize(f, fields[1..]);
      assert ([fields[0]] + Insert(f, fields[1..]))[1..] == Insert(f, fields[1..]);
    }
  }

  /** Inserting keeps the meaning: the new field takes precedence, the others keep theirs. */
  lemma {:induction false} InsertMeaning(f: (string, Value), fields: seq<(string, Value)>)
    ensures FieldsMeaning(Insert(f, fields)) == FieldsMeaning(fields)[f.0 := MeaningOf(f.1)]
  {
    if fields == [] || !Before(fields[0].0, f.0) {
      assert ([f] + fields)[1..] == fields;
    } else {
      InsertMeaning(f, fields[1..]);
      BeforeTotal(fields[0].0, f.0);
      assert ([fields[0]] + Insert(f, fields[1..]))[1..] == Insert(f, fields[1..]);
    }
  }

  lemma {:induction false} InsertSorts(f: (string, Value), fields: seq<(string, Value)>)
    requires StrictlySorted(fields) && FieldsWellFormed(fields)
    requires WellFormed(f.1) && f.0 !in FieldsMeaning(fields)
    ensures StrictlySorted(Insert(f, fields)) && FieldsWellFormed(Insert(f, fields))
  {
    if fields == [] || !Before(fields[0].0, f.0) {
      assert ([f] + fields)[1..] == fields;
      if fields != [] {
        BeforeTotal(f.0, fields[0].0);
      }
    } else {
      InsertSorts(f, fields[1..]);
      InsertMeaning(f, fields[1..]);
      assert ([fields[0]] + Insert(f, fields[1..]))[1..] == Insert(f, fields[1..]);
      BeforeTotal(fields[0].0, f.0);
    }
  }

  lemma {:induction false} SortedMeaning(fields: seq<(string, Value)>)
    ensures FieldsMeaning(Sorted(fields)) == FieldsMeaning(fields)
  {
    if fields != [] {
      SortedMeaning(fields[1..]);
      InsertMeaning(fields[0], Sorted(fields[1..]));
    }
  }

  lemma {:induction false} SortedSorts(fields: seq<(string, Value)>)
    requires FieldsWellFormed(fields)
    ensures StrictlySorted(Sorted(fields)) && FieldsWellFormed(Sorted(fields))
  {
    if fields != [] {
      SortedSorts(fields[1..]);
      SortedMeaning(fields[1..]);
      InsertSorts(fields[0], Sorted(fields[1..]));
    }
  }

  // ----- the text -----

  function HexDigit(n: nat): char
    requires n < 16
  {
    "0123456789abcdef"[n]
  }

  /** One character inside a JSON string, escaped as section 7 of RFC 8259 requires. */
  function EscapedChar(c: char): string {
    if c == '\"' then "\\\""
    else if c == '\\' then "\\\\"
    else if c == 8 as char then "\\b"
    else if c == 12 as char then "\\f"
    else if c == '\n' then "\\n"
    else if c == '\r' then "\\r"
    else if c == '\t' then "\\t"
    else if c < ' ' then "\\u00" + [HexDigit(c as nat / 16), HexDigit(c as nat % 16)]
    else [c]
  }

  function Escaped(s: string): string {
    if s == "" then "" else EscapedChar(s[0]) + Escaped(s[1..])
  }

  function Quoted(s: string): string {
    "\"" + Escaped(s) + "\""
  }

  /** The canonical text of a value. */
  function Text(v: Value): string
    decreases Size(v), 0
  {
    match v
    case Null => "null"
    case Bool(b) => if b then "true" else "false"
    case Number(token) => token
    case String(s) => Quoted(s)
    case Array(items) => "[" + ItemsText(items) + "]"
    case Object(fields) => "{" + FieldsText(Sorted(fields)) + "}"
  }

  function ItemsText(items: seq<Value>): string
    decreases ItemsSize(items), 1
  {
    if items == [] then "" else Text(items[0]) + MoreItems(items)
  }

  /** What follows the first of several items. */
  function MoreItems(items: seq<Value>): string
    requires items != []
    decreases ItemsSize(items), 0
  {
    if |items| == 1 then "" else "," + ItemsText(items[1..])
  }

  function FieldsText(fields: seq<(string, Value)>): string
    decreases FieldsSize(fields), 1
  {
    if fields == [] then "" else Quoted(fields[0].0) + (":" + (Text(fields[0].1) + MoreFields(fields)))
  }

  function MoreFields(fields: seq<(string, Value)>): string
    requires fields != []
    decreases FieldsSize(fields), 0
  {
    if |fields| == 1 then "" else "," + FieldsText(fields[1..])
  }

  lemma Assoc(a: string, b: string, c: string)
    ensures (a + b) + c == a + (b + c)
  {
  }

  /** Appends the canonical text of `v` to what has been written so far. */
  method WriteCanonical(v: Value, before: string) returns (out: string)
    ensures out == before + Text(v)
    decreases Size(v), 1
  {
    out := before;
    match v
    case Object(fields) =>
      var pairs := Sorted(fields);
      out := out + "{";
      out := WriteFields(pairs, out);
      out := out + "}";
      Assoc(before, "{", FieldsText(pairs));
      Assoc(before, "{" + FieldsText(pairs), "}");
    case Array(items) =>
      out := out + "[";
      out := WriteItems(items, out);
      out := out + "]";
      Assoc(before, "[", ItemsText(items));
      Assoc(before, "[" + ItemsText(items), "]");
    case _ =>
      out := out + Text(v);
  }

  /** The loop over an object's pairs. */
  method WriteFields(pairs: seq<(string, Value)>, before: string) returns (out: string)
    ensures out == before + FieldsText(pairs)
    decreases FieldsSize(pairs), 2
  {
    out := before;
    for i := 0 to |pairs|
      invariant FieldsSize(pairs[i..]) <= FieldsSize(pairs)
      invariant out + FieldsFrom(pairs, i) == before + FieldsText(pairs)
    {
      ghost var at := out;
      if i > 0 {
        out := out + ",";
      }
      FieldsStep(pairs, i, at, out);
      out := out + Quoted(pairs[i].0);
      out := out + ":";
      out := WriteCanonical(pairs[i].1, out);
    }
  }

  /** What the loop has yet to write when it comes to pair `i`. */
  ghost function FieldsFrom(pairs: seq<(string, Value)>, i: nat): string
    requires i <= |pairs|
  {
    if i == 0 || i == |pairs| then FieldsText(pairs[i..]) else "," + FieldsText(pairs[i..])
  }

  lemma FieldsStep(pairs: seq<(string, Value)>, i: nat, before: string, out: string)
    requires i < |pairs| && out == before + if i == 0 then "" else ","
    ensures FieldsSize(pairs[i..]) == Size(pairs[i].1) + FieldsSize(pairs[i + 1..])
    ensures before + FieldsFrom(pairs, i)
         == out + Quoted(pairs[i].0) + ":" + Text(pairs[i].1) + FieldsFrom(pairs, i + 1)
  {
    var rest, k, t := pairs[i..], Quoted(pairs[i].0), Text(pairs[i].1);
    assert rest[1..] == pairs[i + 1..] && rest[0] == pairs[i];
    assert MoreFields(rest) == FieldsFrom(pairs, i + 1);
    Assoc(before, ",", FieldsText(rest));
    assert before + FieldsFrom(pairs, i) == out + FieldsText(rest);
    Assoc(out, k, ":" + (t + MoreFields(rest)));
    Assoc(out + k, ":", t + MoreFields(rest));
    Assoc(out + k + ":", t, MoreFields(rest));
  }

  /** The loop over an array's items. */
  method WriteItems(items: seq<Value>, before: string) returns (out: string)
    ensures out == before + ItemsText(items)
    decreases ItemsSize(items), 2
  {
    out := before;
    for i := 0 to |items|
      invariant ItemsSize(items[i..]) <= ItemsSize(items)
      invariant out + ItemsFrom(items, i) == before + ItemsText(items)
    {
      ghost var at := out;
      if i > 0 {
        out := out + ",";
      }
      ItemsStep(items, i, at, out);
      out := WriteCanonical(items[i], out);
    }
  }

  ghost function ItemsFrom(items: seq<Value>, i: nat): string
    requires i <= |items|
  {
    if i == 0 || i == |items| then ItemsText(items[i..]) else "," + ItemsText(items[i..])
  }

  lemma ItemsStep(items: seq<Value>, i: nat, before: string, out: string)
    requires i < |items| && out == before + if i == 0 then "" else ","
    ensures ItemsSize(items[i..]) == Size(items[i]) + ItemsSize(items[i + 1..])
    ensures before + ItemsFrom(items, i) == out + Text(items[i]) + ItemsFrom(items, i + 1)
  {
    var rest := items[i..];
    assert rest[1..] == items[i + 1..] && rest[0] == items[i];
    assert MoreItems(rest) == ItemsFrom(items, i + 1);
    Assoc(before, ",", ItemsText(rest));
    assert before + ItemsFrom(items, i) == out + ItemsText(rest);
    Assoc(out, Text(items[i]), MoreItems(rest));
  }

  method CanonicalJson(v: Value) returns (text: string)
    ensures text == Text(v)
  {
    text := WriteCanonical(v, "");
  }

  // ----- equal texts come from equal meanings -----

  /** What may follow a value inside a canonical text. */
  predicate Ends(rest: string) {
    rest == "" || rest[0] == ',' || rest[0] == ']' || rest[0] == '}'
  }

  lemma EscapedCharUnambiguous(c: char, d: char, r: string, s: string)
    requires EscapedChar(c) + r == EscapedChar(d) + s
    ensures c == d && r == s
  {
    hide HexDigit;
    var x, y := EscapedChar(c), EscapedChar(d);
    assert x[0] == (x + r)[0] == (y + s)[0] == y[0];
    if |x| > 1 {
      assert x[1] == (x + r)[1] == (y + s)[1] == y[1];
      if |x| == 6 {
        assert x[4] == (x + r)[4] == (y + s)[4] == y[4];
        assert x[5] == (x + r)[5] == (y + s)[5] == y[5];
        HexDigitsDiffer(c as nat / 16, d as nat / 16);
        HexDigitsDiffer(c as nat % 16, d as nat % 16);
      }
    }
    assert x == y;
    Rest(x, r, s);
  }

  lemma HexDigitsDiffer(m: nat, n: nat)
    requires m < 16 && n < 16 && HexDigit(m) == HexDigit(n)
    ensures m == n
  {
  }

  /** A string ends at its first unescaped quotation mark. */
  lemma {:induction false} QuotedUnambiguous(a: string, b: string, r: string, s: string)
    requires r != "" && r[0] == '\"' && s != "" && s[0] == '\"'
    requires Escaped(a) + r == Escaped(b) + s
    ensures a == b && r == s
  {
    if a == "" || b == "" {
      assert (Escaped(a) + r)[0] == (Escaped(b) + s)[0];
      assert a == "" && b == "";
      assert Escaped(a) + r == r && Escaped(b) + s == s;
    } else {
      hide EscapedChar;
      Assoc(EscapedChar(a[0]), Escaped(a[1..]), r);
      Assoc(EscapedChar(b[0]), Escaped(b[1..]), s);
      EscapedCharUnambiguous(a[0], b[0], Escaped(a[1..]) + r, Escaped(b[1..]) + s);
      QuotedUnambiguous(a[1..], b[1..], r, s);
      assert a == [a[0]] + a[1..] && b == [b[0]] + b[1..];
    }
  }

  lemma {:induction false} NumberUnambiguous(t: string, u: string, r: string, s: string)
    requires forall i :: 0 <= i < |t| ==> NumberChar(t[i])
    requires forall i :: 0 <= i < |u| ==> NumberChar(u[i])
    requires Ends(r) && Ends(s) && t + r == u + s
    ensures t == u && r == s
  {
    var all := t + r;
    assert forall i :: 0 <= i < |t| ==> NumberChar(all[i]);
    assert forall i :: 0 <= i < |u| ==> NumberChar((u + s)[i]);
    assert r != "" ==> all[|t|] == r[0];
    assert s != "" ==> (u + s)[|u|] == s[0];
    assert |t| == |u|;
    assert t == (t + r)[..|t|] && u == (u + s)[..|u|];
    assert r == (t + r)[|t|..] && s == (u + s)[|u|..];
  }

  /** The first character tells the kinds of value apart. */
  lemma FirstChar(v: Value)
    requires WellFormed(v)
    ensures Text(v) != "" && !Ends(Text(v))
    ensures Text(v)[0] == '{' <==> v.Object?
    ensures Text(v)[0] == '[' <==> v.Array?
    ensures Text(v)[0] == '\"' <==> v.String?
    ensures Text(v)[0] == 'n' <==> v.Null?
    ensures Text(v)[0] == 't' <==> v == Bool(true)
    ensures Text(v)[0] == 'f' <==> v == Bool(false)
  {
    if v.Number? {
      assert NumberChar(v.token[0]);
    }
  }

  /** A value's text can be read in only one way, whatever follows it. */
  lemma {:induction false} TextUnambiguous(a: Value, b: Value, r: string, s: string)
    requires WellFormed(a) && WellFormed(b) && Ends(r) && Ends(s)
    requires Text(a) + r == Text(b) + s
    ensures MeaningOf(a) == MeaningOf(b) && r == s
    decreases Size(a), 0
  {
    hide Sorted, Escaped, NumberToken;
    FirstChar(a);
    FirstChar(b);
    assert Text(a)[0] == (Text(a) + r)[0] == (Text(b) + s)[0] == Text(b)[0];
    match a
    case Null => Rest("null", r, s);
    case Bool(_) => Rest(Text(a), r, s);
    case Number(t) => NumberTokens(t, b.token, r, s);
    case String(x) =>
      Opened("\"", Escaped(x), "\"", r, Escaped(b.s), "\"", s);
      QuotedUnambiguous(x, b.s, "\"" + r, "\"" + s);
      Rest("\"", r, s);
    case Array(items) =>
      Opened("[", ItemsText(items), "]", r, ItemsText(b.items), "]", s);
      ItemsUnambiguous(items, b.items, "]" + r, "]" + s);
      Rest("]", r, s);
    case Object(fields) =>
      Opened("{", FieldsText(Sorted(fields)), "}", r, FieldsText(Sorted(b.fields)), "}", s);
      SortedSorts(fields);
      SortedSorts(b.fields);
      FieldsUnambiguous(Sorted(fields), Sorted(b.fields), "}" + r, "}" + s);
      SortedMeaning(fields);
      SortedMeaning(b.fields);
      Rest("}", r, s);
  }

  lemma NumberTokens(t: string, u: string, r: string, s: string)
    requires NumberToken(t) && NumberToken(u)
    requires Ends(r) && Ends(s) && t + r == u + s
    ensures t == u && r == s
  {
    NumberUnambiguous(t, u, r, s);
  }

  lemma Rest(t: string, r: string, s: string)
    requires t + r == t + s
    ensures r == s
  {
    assert r == (t + r)[|t|..] && s == (t + s)[|t|..];
  }

  lemma Opened(open: string, x: string, closeX: string, r: string, y: string, closeY: string, s: string)
    requires open + x + closeX + r == open + y + closeY + s
    ensures x + (closeX + r) == y + (closeY + s)
  {
    assert open + x + closeX + r == open + (x + (closeX + r));
    assert open + y + closeY + s == open + (y + (closeY + s));
    Rest(open, x + (closeX + r), y + (closeY + s));
  }

  lemma {:induction false} ItemsUnambiguous(xs: seq<Value>, ys: seq<Value>, r: string, s: string)
    requires ItemsWellFormed(xs) && ItemsWellFormed(ys)
    requires r != "" && r[0] == ']' && s != "" && s[0] == ']'
    requires ItemsText(xs) + r == ItemsText(ys) + s
    ensures ItemsMeaning(xs) == ItemsMeaning(ys) && r == s
    decreases ItemsSize(xs), 1
  {
    hide Text, WellFormed, MeaningOf;
    if xs != [] {
      FirstChar(xs[0]);
      Assoc(Text(xs[0]), MoreItems(xs), r);
    }
    if ys != [] {
      FirstChar(ys[0]);
      Assoc(Text(ys[0]), MoreItems(ys), s);
    }
    if xs == [] || ys == [] {
      assert (ItemsText(xs) + r)[0] == (ItemsText(ys) + s)[0];
      assert xs == [] && ys == [];
      assert ItemsText(xs) + r == r && ItemsText(ys) + s == s;
    } else {
      TextUnambiguous(xs[0], ys[0], MoreItems(xs) + r, MoreItems(ys) + s);
      assert (MoreItems(xs) + r)[0] == (MoreItems(ys) + s)[0];
      if |xs| == 1 {
        assert xs[1..] == [] && ys[1..] == [];
        assert "" + r == r && "" + s == s;
      } else {
        Assoc(",", ItemsText(xs[1..]), r);
        Assoc(",", ItemsText(ys[1..]), s);
        Rest(",", ItemsText(xs[1..]) + r, ItemsText(ys[1..]) + s);
        ItemsUnambiguous(xs[1..], ys[1..], r, s);
      }
    }
  }

  lemma {:induction false} FieldsUnambiguous(xs: seq<(string, Value)>, ys: seq<(string, Value)>, r: string, s: string)
    requires FieldsWellFormed(xs) && FieldsWellFormed(ys)
    requires r != "" && r[0] == '}' && s != "" && s[0] == '}'
    requires FieldsText(xs) + r == FieldsText(ys) + s
    ensures FieldsMeaning(xs) == FieldsMeaning(ys) && r == s
    decreases FieldsSize(xs), 1
  {
    hide Text, WellFormed, MeaningOf, Escaped;
    if xs == [] || ys == [] {
      assert (FieldsText(xs) + r)[0] == (FieldsText(ys) + s)[0];
      assert xs == [] && ys == [];
      assert FieldsText(xs) + r == r && FieldsText(ys) + s == s;
    } else {
      var moreX, moreY := MoreFields(xs) + r, MoreFields(ys) + s;
      FieldSplit(xs, r);
      FieldSplit(ys, s);
      QuotedUnambiguous(xs[0].0, ys[0].0, "\":" + (Text(xs[0].1) + moreX), "\":" + (Text(ys[0].1) + moreY));
      Rest("\":", Text(xs[0].1) + moreX, Text(ys[0].1) + moreY);
      TextUnambiguous(xs[0].1, ys[0].1, moreX, moreY);
      assert moreX[0] == moreY[0];
      if |xs| == 1 {
        assert xs[1..] == [] && ys[1..] == [];
        assert "" + r == r && "" + s == s;
      } else {
        Assoc(",", FieldsText(xs[1..]), r);
        Assoc(",", FieldsText(ys[1..]), s);
        Rest(",", FieldsText(xs[1..]) + r, FieldsText(ys[1..]) + s);
        FieldsUnambiguous(xs[1..], ys[1..], r, s);
      }
    }
  }

  lemma FieldSplit(xs: seq<(string, Value)>, r: string)
    requires xs != []
    ensures FieldsText(xs) + r != ""
    ensures (FieldsText(xs) + r)[1..] == Escaped(xs[0].0) + ("\":" + (Text(xs[0].1) + (MoreFields(xs) + r)))
  {
    hide Text, MoreFields, Escaped;
    var k, t, m := Escaped(xs[0].0), Text(xs[0].1), MoreFields(xs);
    assert FieldsText(xs) == ("\"" + k + "\"") + (":" + (t + m));
    SplitText(k, t, m, r);
  }

  lemma SplitText(k: string, t: string, m: string, r: string)
    ensures (("\"" + k + "\"") + (":" + (t + m)) + r)[1..] == k + ("\":" + (t + (m + r)))
  {
    assert (("\"" + k + "\"") + (":" + (t + m)) + r)[1..] == k + "\"" + ":" + t + m + r;
    assert k + ("\":" + (t + (m + r))) == k + "\"" + ":" + t + m + r;
  }

  // ----- equal meanings give equal texts -----

  lemma {:induction false} SameText(a: Value, b: Value)
    requires WellFormed(a) && WellFormed(b) && MeaningOf(a) == MeaningOf(b)
    ensures Text(a) == Text(b)
    decreases Size(a), 0
  {
    match a
    case Array(items) => SameItemsText(items, b.items);
    case Object(fields) =>
      SortedSorts(fields);
      SortedSorts(b.fields);
      SortedMeaning(fields);
      SortedMeaning(b.fields);
      SameFieldsText(Sorted(fields), Sorted(b.fields));
    case _ => assert a == b;
  }

  lemma {:induction false} SameItemsText(xs: seq<Value>, ys: seq<Value>)
    requires ItemsWellFormed(xs) && ItemsWellFormed(ys) && ItemsMeaning(xs) == ItemsMeaning(ys)
    ensures ItemsText(xs) == ItemsText(ys)
    decreases ItemsSize(xs), 1
  {
    ItemsCount(xs);
    ItemsCount(ys);
    if xs != [] {
      assert MeaningOf(xs[0]) == ItemsMeaning(xs)[0] == ItemsMeaning(ys)[0] == MeaningOf(ys[0]);
      assert ItemsMeaning(xs[1..]) == ItemsMeaning(xs)[1..] == ItemsMeaning(ys)[1..] == ItemsMeaning(ys[1..]);
      SameText(xs[0], ys[0]);
      SameItemsText(xs[1..], ys[1..]);
    }
  }

  lemma {:induction false} ItemsCount(xs: seq<Value>)
    ensures |ItemsMeaning(xs)| == |xs|
  {
    if xs != [] {
      ItemsCount(xs[1..]);
    }
  }

  /** No key of a sorted list comes before its first. */
  lemma {:induction false} FirstKeyLeast(xs: seq<(string, Value)>, key: string)
    requires StrictlySorted(xs) && key in FieldsMeaning(xs)
    ensures xs != [] && (key == xs[0].0 || Before(xs[0].0, key))
  {
    if key != xs[0].0 {
      FirstKeyLeast(xs[1..], key);
      if key != xs[1].0 {
        BeforeTransitive(xs[0].0, xs[1].0, key);
      }
    }
  }

  lemma NonemptyMeaning(xs: seq<(string, Value)>)
    ensures xs == [] <==> FieldsMeaning(xs) == map[]
    ensures xs != [] ==> xs[0].0 in FieldsMeaning(xs)
  {
  }

  lemma {:induction false} SameFieldsText(xs: seq<(string, Value)>, ys: seq<(string, Value)>)
    requires StrictlySorted(xs) && StrictlySorted(ys) && FieldsWellFormed(xs) && FieldsWellFormed(ys)
    requires FieldsMeaning(xs) == FieldsMeaning(ys)
    ensures FieldsText(xs) == FieldsText(ys)
    decreases FieldsSize(xs), 1
  {
    hide Text, MeaningOf, WellFormed, Quoted, Before;
    NonemptyMeaning(xs);
    NonemptyMeaning(ys);
    if xs != [] && ys != [] {
      FirstKeyLeast(xs, ys[0].0);
      FirstKeyLeast(ys, xs[0].0);
      BeforeTotal(xs[0].0, ys[0].0);
      SameText(xs[0].1, ys[0].1);
      assert FieldsMeaning(xs[1..]) == FieldsMeaning(xs) - {xs[0].0};
      assert FieldsMeaning(ys[1..]) == FieldsMeaning(ys) - {ys[0].0};
      SameFieldsText(xs[1..], ys[1..]);
      NonemptyMeaning(xs[1..]);
      NonemptyMeaning(ys[1..]);
    }
  }

  /** Canonical texts agree exactly when the values agree up to object key order at every depth. */
  lemma CanonicalIdentifies(a: Value, b: Value)
    requires WellFormed(a) && WellFormed(b)
    ensures Text(a) == Text(b) <==> MeaningOf(a) == MeaningOf(b)
  {
    if Text(a) == Text(b) {
      TextUnambiguous(a, b, "", "");
    }
    if MeaningOf(a) == MeaningOf(b) {
      SameText(a, b);
    }
  }

  /** Reordering the fields of an object leaves its canonical text alone. */
  lemma PermutedFieldsSameText(xs: seq<(string, Value)>, ys: seq<(string, Value)>)
    requires WellFormed(Object(xs)) && WellFormed(Object(ys)) && multiset(xs) == multiset(ys)
    ensures Text(Object(xs)) == Text(Object(ys))
  {
    FieldsContain(xs, ys);
    FieldsContain(ys, xs);
    SameText(Object(xs), Object(ys));
  }

  lemma FieldsContain(xs: seq<(string, Value)>, ys: seq<(string, Value)>)
    requires FieldsWellFormed(ys) && multiset(xs) == multiset(ys)
    ensures forall key :: key in FieldsMeaning(xs) ==>
      key in FieldsMeaning(ys) && FieldsMeaning(ys)[key] == FieldsMeaning(xs)[key]
  {
    forall key | key in FieldsMeaning(xs)
      ensures key in FieldsMeaning(ys) && FieldsMeaning(ys)[key] == FieldsMeaning(xs)[key]
    {
      var f := FieldOf(xs, key);
      assert f in multiset(xs);
      MeaningOfField(ys, f);
    }
  }

  /** The field a key's meaning comes from. */
  ghost function FieldOf(xs: seq<(string, Value)>, key: string): (f: (string, Value))
    requires key in FieldsMeaning(xs)
    ensures f in xs && f.0 == key && MeaningOf(f.1) == FieldsMeaning(xs)[key]
  {
    if xs[0].0 == key then xs[0] else FieldOf(xs[1..], key)
  }

  lemma {:induction false} MeaningOfField(xs: seq<(string, Value)>, f: (string, Value))
    requires FieldsWellFormed(xs) && f in xs
    ensures f.0 in FieldsMeaning(xs) && FieldsMeaning(xs)[f.0] == MeaningOf(f.1)
  {
    if f != xs[0] {
      MeaningOfField(xs[1..], f);
    }
  }
}
