/** A reader of compact JSON text, written from RFC 8259 and independent of how the engine writes. */
module JsonReader {
  import opened Cursors
  import opened Json

  function HexValue(c: char): Option<nat> {
    if '0' <= c <= '9' then Some((c - '0') as nat)
    else if 'a' <= c <= 'f' then Some((c - 'a') as nat + 10)
    else if 'A' <= c <= 'F' then Some((c - 'A') as nat + 10)
    else None
  }

  /** The code point that four hexadecimal digits stand for, unless it is half of a surrogate pair. */
  function FourHex(t: string): Option<char>
    requires |t| == 4
  {
    match (HexValue(t[0]), HexValue(t[1]), HexValue(t[2]), HexValue(t[3]))
    case (Some(a), Some(b), Some(c), Some(d)) =>
      var n := 4096 * a + 256 * b + 16 * c + d;
      if n < 0xD800 || 0xE000 <= n < 0x10000 then Some(n as char) else None
    case _ => None
  }

  /** The two-character escapes of section 7. */
  function Unescaped(c: char): Option<char> {
    if c == '\"' || c == '\\' || c == '/' then Some(c)
    else if c == 'b' then Some(8 as char)
    else if c == 'f' then Some(12 as char)
    else if c == 'n' then Some(10 as char)
    else if c == 'r' then Some(13 as char)
    else if c == 't' then Some(9 as char)
    else None
  }

  function Prepend(c: char, r: Option<(string, string)>): Option<(string, string)> {
    match r case None => None case Some((s, rest)) => Some(([c] + s, rest))
  }

  /** The rest of a string after its opening quotation mark (section 7), and what follows the closing one. Characters below
      the space must be escaped. Escaped surrogate pairs are not read. */
  function ReadChars(t: string): (r: Option<(string, string)>)
    ensures r.Some? ==> |r.value.1| < |t|
    decreases |t|
  {
    if t == "" then None
    else if t[0] == '\"' then Some(("", t[1..]))
    else if t[0] == '\\' then
      if |t| < 2 then None
      else if t[1] == 'u' then
        if |t| < 6 then None
        else match FourHex(t[2..6]) case None => None case Some(c) => Prepend(c, ReadChars(t[6..]))
      else match Unescaped(t[1]) case None => None case Some(c) => Prepend(c, ReadChars(t[2..]))
    else if t[0] < ' ' then None
    else Prepend(t[0], ReadChars(t[1..]))
  }

  /** The characters of the number grammar of section 6; a number's token is kept as it is. */
  predicate OfNumber(c: char) {
    c in "0123456789-+.eE"
  }

  function NumberSpan(t: string): (n: nat)
    ensures n <= |t|
    ensures forall i :: 0 <= i < n ==> OfNumber(t[i])
    ensures n < |t| ==> !OfNumber(t[n])
  {
    if t == "" || !OfNumber(t[0]) then 0 else 1 + NumberSpan(t[1..])
  }

  /** One value at the front of a text, and what follows it (sections 3 to 6). */
  function ReadValue(t: string): (r: Option<(Value, string)>)
    ensures r.Some? ==> |r.value.1| < |t|
    decreases |t|, 0
  {
    if t == "" then None
    else if "null" <= t then Some((Null, t[4..]))
    else if "true" <= t then Some((Bool(true), t[4..]))
    else if "false" <= t then Some((Bool(false), t[5..]))
    else if t[0] == '\"' then
      match ReadChars(t[1..]) case None => None case Some((s, rest)) => Some((String(s), rest))
    else if t[0] == '[' then
      if |t| > 1 && t[1] == ']' then Some((Array([]), t[2..]))
      else match ReadItems(t[1..]) case None => None case Some((items, rest)) => Some((Array(items), rest))
    else if t[0] == '{' then
      if |t| > 1 && t[1] == '}' then Some((Object([]), t[2..]))
      else match ReadFields(t[1..]) case None => None case Some((fields, rest)) => Some((Object(fields), rest))
    else
      var n := NumberSpan(t);
      if n == 0 then None else Some((Number(t[..n]), t[n..]))
  }

  /** The items of an array, at least one, up to its closing bracket. */
  function ReadItems(t: string): (r: Option<(seq<Value>, string)>)
    ensures r.Some? ==> |r.value.1| < |t|
    decreases |t|, 1
  {
    match ReadValue(t)
    case None => None
    case Some((v, rest)) =>
      if rest == "" then None
      else if rest[0] == ']' then Some(([v], rest[1..]))
      else if rest[0] == ',' then
        match ReadItems(rest[1..]) case None => None case Some((items, after)) => Some(([v] + items, after))
      else None
  }

  /** The members of an object, at least one, up to its closing brace. */
  function ReadFields(t: string): (r: Option<(seq<(string, Value)>, string)>)
    ensures r.Some? ==> |r.value.1| < |t|
    decreases |t|, 1
  {
    if t == "" || t[0] != '\"' then None
    else
      match ReadChars(t[1..])
      case None => None
      case Some((key, tail)) =>
        if tail == "" || tail[0] != ':' then None
        else
          match ReadValue(tail[1..])
          case None => None
          case Some((v, rest)) =>
            if rest == "" then None
            else if rest[0] == '}' then Some(([(key, v)], rest[1..]))
            else if rest[0] == ',' then
              match ReadFields(rest[1..]) case None => None case Some((fields, after)) => Some(([(key, v)] + fields, after))
            else None
  }
}
