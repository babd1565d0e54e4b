/** Reading canonical text back: it is JSON text of the value it was written from, compact, with sorted keys. */
module CanonRead {
  import opened Cursors
  import opened Json
  import opened Canon
  import opened JsonReader

  // ----- strings -----

  lemma HexRead(n: nat)
    requires n < 16
    ensures HexValue(HexDigit(n)) == Some(n)
  {
  }

  /** A control character written with four hexadecimal digits is read as that character. */
  lemma ControlRead(c: char, u: string)
    requires c < ' '
    ensures var x := "\\u00" + [HexDigit(c as nat / 16), HexDigit(c as nat % 16)];
      ReadChars(x + u) == Prepend(c, ReadChars(u))
  {
    hide HexDigit, HexValue, FourHex;
    var h, l := HexDigit(c as nat / 16), HexDigit(c as nat % 16);
    var x := "\\u00" + [h, l];
    var t := x + u;
    assert t[6..] == u && t[2..6] == ['0', '0', h, l];
    FourRead(c, h, l);
  }

  lemma FourRead(c: char, h: char, l: char)
    requires c < ' ' && h == HexDigit(c as nat / 16) && l == HexDigit(c as nat % 16)
    ensures FourHex(['0', '0', h, l]) == Some(c)
  {
    HexRead(0);
    HexRead(c as nat / 16);
    HexRead(c as nat % 16);
  }

  lemma PlainRead(c: char, u: string)
    requires c >= ' ' && c != '\"' && c != '\\'
    ensures ReadChars([c] + u) == Prepend(c, ReadChars(u))
  {
    assert ([c] + u)[1..] == u;
  }

  lemma PairRead(c: char, e: char, u: string)
    requires Unescaped(e) == Some(c)
    ensures ReadChars(['\\', e] + u) == Prepend(c, ReadChars(u))
  {
    hide FourHex;
    assert (['\\', e] + u)[2..] == u;
  }

  /** One escaped character is read as that character. */
  lemma CharRead(c: char, u: string)
    ensures ReadChars(EscapedChar(c) + u) == Prepend(c, ReadChars(u))
  {
    hide HexDigit, ReadChars, Prepend;
    var x := EscapedChar(c);
    if |x| == 6 {
      ControlRead(c, u);
    } else if |x| == 2 {
      assert x == ['\\', x[1]];
      PairRead(c, x[1], u);
    } else {
      PlainRead(c, u);
    }
  }

  lemma EscapeLength(c: char)
    ensures c >= ' ' && c != '\"' && c != '\\' ==> |EscapedChar(c)| == 1
    ensures |EscapedChar(c)| <= 6
  {
    hide HexDigit;
  }

  lemma PairLength(c: char, e: char)
    requires Unescaped(e) == Some(c)
    ensures |EscapedChar(c)| <= 2
  {
    hide HexDigit;
  }

  lemma PrependHead(c: char, r: Option<(string, string)>)
    ensures Prepend(c, r).Some? ==> Prepend(c, r).value.0 != "" && Prepend(c, r).value.0[0] == c
  {
  }

  /** How a text begins whose first character is read as `c`. */
  lemma ReadStarts(t: string, c: char)
    requires ReadChars(t).Some? && ReadChars(t).value.0 != "" && ReadChars(t).value.0[0] == c
    ensures t != "" && t[0] != '\"'
    ensures t[0] != '\\' ==> t[0] == c && c >= ' '
    ensures t[0] == '\\' ==> |t| >= 2
    ensures t[0] == '\\' && t[1] != 'u' ==> Unescaped(t[1]) == Some(c)
    ensures t[0] == '\\' && t[1] == 'u' ==> |t| >= 6 && t[5] != '\"'
  {
    hide Unescaped, FourHex, Prepend;
    if t[0] != '\\' {
      PrependHead(t[0], ReadChars(t[1..]));
    } else if t[1] == 'u' {
      if t[5] == '\"' {
        QuoteIsNoDigit(t[2..6]);
      }
    } else {
      PrependHead(Unescaped(t[1]).value, ReadChars(t[2..]));
    }
  }

  lemma QuoteIsNoDigit(t: string)
    requires |t| == 4 && t[3] == '\"'
    ensures FourHex(t).None?
  {
  }

  /** No way of writing a character inside a string is shorter than the one chosen: `t` is another, up to the closing
      quotation mark. */
  lemma ShortestEscape(c: char, t: string)
    requires ReadChars(t).Some? && ReadChars(t).value.0 == [c] && |t| > 0 && t[|t| - 1] == '\"'
    ensures |EscapedChar(c)| < |t|
  {
    hide ReadChars, EscapedChar, Unescaped, FourHex;
    assert [c][0] == c;
    ReadStarts(t, c);
    EscapeLength(c);
    if t[0] != '\\' {
      NotEmpty(t, c);
    } else if t[1] != 'u' {
      PairLength(c, t[1]);
      if |t| == 2 {
        LoneBackslash(t);
      }
    }
  }

  lemma NotEmpty(t: string, c: char)
    requires t != "" && t[0] == c && c >= ' ' && c != '\\' && c != '\"' && t[|t| - 1] == '\"'
    ensures |EscapedChar(c)| < |t|
  {
    hide HexDigit;
  }

  lemma LoneBackslash(t: string)
    requires |t| == 2 && t[0] == '\\'
    ensures ReadChars(t).None?
  {
    hide FourHex, Unescaped;
    assert t[2..] == "" && ReadChars("") == None;
  }

  /** Control characters without a short escape are written with lower-case digits. */
  lemma LowerCaseDigits(c: char)
    ensures forall i :: 0 <= i < |EscapedChar(c)| && |EscapedChar(c)| == 6 ==>
      var x := EscapedChar(c)[i]; x == '\\' || x == 'u' || '0' <= x <= '9' || 'a' <= x <= 'f'
  {
    if |EscapedChar(c)| == 6 {
      DigitIsLower(c as nat / 16);
      DigitIsLower(c as nat % 16);
    }
  }

  lemma DigitIsLower(n: nat)
    requires n < 16
    ensures '0' <= HexDigit(n) <= '9' || 'a' <= HexDigit(n) <= 'f'
  {
  }

  lemma {:induction false} CharsRead(s: string, rest: string)
    ensures ReadChars(Escaped(s) + ("\"" + rest)) == Some((s, rest))
  {
    if s == "" {
      assert Escaped(s) + ("\"" + rest) == "\"" + rest;
      assert ("\"" + rest)[1..] == rest;
    } else {
      hide EscapedChar, ReadChars;
      CharsRead(s[1..], rest);
      CharRead(s[0], Escaped(s[1..]) + ("\"" + rest));
      Assoc(EscapedChar(s[0]), Escaped(s[1..]), "\"" + rest);
      assert s == [s[0]] + s[1..];
    }
  }

  // ----- values -----

  /** The keys are in strict order, at every depth. */
  predicate Ordered(v: Value)
    decreases v
  {
    match v
    case Array(items) => ItemsOrdered(items)
    case Object(fields) => StrictlySorted(fields) && FieldsOrdered(fields)
    case _ => true
  }

  predicate ItemsOrdered(items: seq<Value>)
    decreases items
  {
    items == [] || (Ordered(items[0]) && ItemsOrdered(items[1..]))
  }

  predicate FieldsOrdered(fields: seq<(string, Value)>)
    decreases fields
  {
    fields == [] || (assert fields[0].1 < fields[0]; Ordered(fields[0].1) && FieldsOrdered(fields[1..]))
  }

  ghost predicate SameKeys(xs: seq<(string, Value)>, ys: seq<(string, Value)>) {
    |xs| == |ys| && forall i :: 0 <= i < |xs| ==> xs[i].0 == ys[i].0
  }

  lemma {:induction false} SameKeysSorted(xs: seq<(string, Value)>, ys: seq<(string, Value)>)
    requires SameKeys(xs, ys) && StrictlySorted(xs)
    ensures StrictlySorted(ys)
  {
    if |xs| >= 2 {
      SameKeysSorted(xs[1..], ys[1..]);
    }
  }

  lemma NumberRead(token: string, rest: string)
    requires NumberToken(token) && Ends(rest)
    ensures ReadValue(token + rest) == Some((Number(token), rest))
  {
    var t := token + rest;
    NumberEnds(token, rest);
    NumberStarts(token);
    assert t[0] == token[0];
    assert t[..|token|] == token && t[|token|..] == rest;
  }

  lemma NumberEnds(token: string, rest: string)
    requires NumberToken(token) && Ends(rest)
    ensures NumberSpan(token + rest) == |token|
  {
    hide NumberSpan;
    var t := token + rest;
    assert forall i :: 0 <= i < |token| ==> t[i] == token[i] && OfNumber(t[i]);
    assert rest != "" ==> t[|token|] == rest[0] && !OfNumber(rest[0]);
  }

  lemma NumberStarts(token: string)
    requires NumberToken(token)
    ensures var c := token[0]; c != 'n' && c != 't' && c != 'f' && c != '\"' && c != '[' && c != '{'
  {
    assert NumberChar(token[0]);
  }

  lemma LiteralRead(word: string, rest: string)
    requires word == "null" || word == "true" || word == "false"
    ensures var v := if word == "null" then Null else Bool(word == "true");
      ReadValue(word + rest) == Some((v, rest))
  {
    var t := word + rest;
    assert t[|word|..] == rest && word <= t;
    assert t[0] == word[0];
  }

  /** A canonical text, whatever follows the value, is read as a value that means the same, with its keys in order. */
  lemma {:induction false} TextRead(v: Value, rest: string)
    requires WellFormed(v) && Ends(rest)
    ensures var r := ReadValue(Text(v) + rest);
      r.Some? && r.value.1 == rest && MeaningOf(r.value.0) == MeaningOf(v) && Ordered(r.value.0)
    decreases Size(v), 0
  {
    hide Sorted, Escaped, NumberToken;
    match v
    case Null => LiteralRead("null", rest);
    case Bool(b) => LiteralRead(if b then "true" else "false", rest);
    case Number(token) => NumberRead(token, rest);
    case String(s) => StringRead(s, rest);
    case Array(items) => ArrayRead(items, rest);
    case Object(fields) => ObjectRead(fields, rest);
  }

  lemma StringRead(s: string, rest: string)
    ensures ReadValue(Quoted(s) + rest) == Some((String(s), rest))
  {
    hide Escaped, ReadChars;
    CharsRead(s, rest);
    var t := Quoted(s) + rest;
    assert t[0] == '\"' && t[1..] == Escaped(s) + ("\"" + rest);
  }

  lemma {:induction false} ArrayRead(items: seq<Value>, rest: string)
    requires ItemsWellFormed(items)
    ensures var r := ReadValue("[" + ItemsText(items) + "]" + rest);
      r.Some? && r.value.1 == rest && MeaningOf(r.value.0) == List(ItemsMeaning(items)) && Ordered(r.value.0)
    decreases ItemsSize(items), 2
  {
    hide ReadItems, ItemsMeaning, Text;
    var t := "[" + ItemsText(items) + "]" + rest;
    assert t[0] == '[' && t[1..] == ItemsText(items) + ("]" + rest);
    if items == [] {
      assert t[1] == ']' && t[2..] == rest;
    } else {
      ItemsRead(items, rest);
      FirstChar(items[0]);
      assert ItemsText(items)[0] == Text(items[0])[0];
      assert t[1] != ']';
    }
  }

  lemma {:induction false} ItemsRead(items: seq<Value>, rest: string)
    requires items != [] && ItemsWellFormed(items)
    ensures var r := ReadItems(ItemsText(items) + ("]" + rest));
      r.Some? && r.value.1 == rest && ItemsMeaning(r.value.0) == ItemsMeaning(items) && ItemsOrdered(r.value.0)
    decreases ItemsSize(items), 1
  {
    hide ReadValue, Text, MeaningOf, Ordered;
    var more := MoreItems(items) + ("]" + rest);
    Assoc(Text(items[0]), MoreItems(items), "]" + rest);
    TextRead(items[0], more);
    var v := ReadValue(Text(items[0]) + more).value.0;
    if |items| == 1 {
      assert more == "]" + rest && more[1..] == rest;
      assert items[1..] == [] && [v][1..] == [];
    } else {
      assert more[1..] == ItemsText(items[1..]) + ("]" + rest);
      ItemsRead(items[1..], rest);
      var vs := ReadItems(more[1..]).value.0;
      assert ([v] + vs)[1..] == vs;
    }
  }

  lemma {:induction false} ObjectRead(fields: seq<(string, Value)>, rest: string)
    requires FieldsWellFormed(fields)
    ensures var r := ReadValue("{" + FieldsText(Sorted(fields)) + "}" + rest);
      r.Some? && r.value.1 == rest && MeaningOf(r.value.0) == Record(FieldsMeaning(fields)) && Ordered(r.value.0)
    decreases FieldsSize(fields), 2
  {
    hide ReadFields, FieldsMeaning, Text, Sorted, Escaped, FieldsOrdered;
    var xs := Sorted(fields);
    SortedSorts(fields);
    SortedMeaning(fields);
    var t := "{" + FieldsText(xs) + "}" + rest;
    assert t[0] == '{' && t[1..] == FieldsText(xs) + ("}" + rest);
    if xs == [] {
      assert t[1] == '}' && t[2..] == rest;
      NoFields();
    } else {
      FieldsRead(xs, rest);
      assert t[1] == '\"';
      SameKeysSorted(xs, ReadFields(t[1..]).value.0);
    }
  }

  lemma NoFields()
    ensures FieldsOrdered([]) && StrictlySorted([])
    ensures FieldsText([]) == "" && FieldsMeaning([]) == map[]
  {
  }

  /** The front of an object's members is a quoted key and a colon. */
  lemma KeyRead(xs: seq<(string, Value)>, rest: string)
    requires xs != []
    ensures var t := FieldsText(xs) + ("}" + rest);
      t != "" && t[0] == '\"' &&
      ReadChars(t[1..]) == Some((xs[0].0, ":" + (Text(xs[0].1) + (MoreFields(xs) + ("}" + rest)))))
  {
    hide ReadChars, Text, MoreFields, Escaped;
    var tail := Text(xs[0].1) + (MoreFields(xs) + ("}" + rest));
    FieldSplit(xs, "}" + rest);
    CharsRead(xs[0].0, ":" + tail);
    assert "\"" + (":" + tail) == "\":" + tail;
  }

  lemma {:induction false} FieldsRead(xs: seq<(string, Value)>, rest: string)
    requires xs != [] && FieldsWellFormed(xs)
    ensures var r := ReadFields(FieldsText(xs) + ("}" + rest));
      && r.Some? && r.value.1 == rest && FieldsMeaning(r.value.0) == FieldsMeaning(xs) && FieldsOrdered(r.value.0)
      && SameKeys(xs, r.value.0)
    decreases FieldsSize(xs), 1
  {
    hide ReadValue, ReadChars, Text, MeaningOf, Ordered, Escaped;
    var key, more := xs[0].0, MoreFields(xs) + ("}" + rest);
    var t := FieldsText(xs) + ("}" + rest);
    KeyRead(xs, rest);
    assert (":" + (Text(xs[0].1) + more))[1..] == Text(xs[0].1) + more;
    TextRead(xs[0].1, more);
    var v := ReadValue(Text(xs[0].1) + more).value.0;
    if |xs| == 1 {
      assert more == "}" + rest && more[1..] == rest;
      assert xs[1..] == [] && [(key, v)][1..] == [];
    } else {
      assert more[1..] == FieldsText(xs[1..]) + ("}" + rest);
      FieldsRead(xs[1..], rest);
      var ys := ReadFields(more[1..]).value.0;
      assert ([(key, v)] + ys)[1..] == ys;
    }
  }

  /** The canonical text of a value is JSON text: it is read in full, as a value that means the same, its keys in order. */
  lemma CanonicalIsJson(v: Value)
    requires WellFormed(v)
    ensures var r := ReadValue(Text(v));
      r.Some? && r.value.1 == "" && MeaningOf(r.value.0) == MeaningOf(v) && Ordered(r.value.0)
  {
    TextRead(v, "");
    assert Text(v) + "" == Text(v);
  }

  lemma FirstSame(a: string, b: string, i: nat)
    requires 0 < i <= |a| && i < |b| && a[..i] == b[..i]
    ensures a[0] == b[0]
  {
    assert a[..i][0] == b[..i][0];
  }

  /** The order of keys is the lexicographic one: at the first difference the smaller character comes first, and a proper
      prefix comes first. */
  lemma {:induction false} KeyOrder(a: string, b: string)
    ensures Before(a, b) <==>
      exists i :: 0 <= i <= |a| && i < |b| && a[..i] == b[..i] && (i == |a| || a[i] < b[i])
  {
    forall i | 0 < i <= |a| && i < |b| && a[..i] == b[..i] ensures a[0] == b[0] {
      FirstSame(a, b, i);
    }
    if a != "" && b != "" && a[0] == b[0] {
      KeyOrder(a[1..], b[1..]);
      assert a == [a[0]] + a[1..] && b == [b[0]] + b[1..];
      if Before(a, b) {
        var i :| 0 <= i <= |a[1..]| && i < |b[1..]| && a[1..][..i] == b[1..][..i] && (i == |a[1..]| || a[1..][i] < b[1..][i]);
        assert a[..i + 1] == [a[0]] + a[1..][..i] == b[..i + 1];
      }
      if i :| 0 <= i <= |a| && i < |b| && a[..i] == b[..i] && (i == |a| || a[i] < b[i]) {
        assert i > 0;
        assert a[1..][..i - 1] == a[..i][1..] == b[..i][1..] == b[1..][..i - 1];
        assert i - 1 == |a[1..]| || a[1..][i - 1] < b[1..][i - 1];
      }
    } else {
      if Before(a, b) {
        assert a[..0] == b[..0];
      }
    }
  }
}
