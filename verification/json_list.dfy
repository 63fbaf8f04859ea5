/**
 * `JSON.stringify` of an array of strings and the matching `JSON.parse`
 * for that compact form: how the booking form ships its valuables list
 * as one multipart field and how the server reads it back.
 */
module JsonList {
  import opened Wrappers
  import Hex

  /** The escape sequence `JSON.stringify` writes for one character of a string. */
  function EscapeChar(c: char): (r: string)
    ensures |r| >= 1
    ensures r[0] != '"'
    ensures |r| == 1 <==> r == [c]
  {
    var n := c as int;
    if c == '"' then ['\\', '"']
    else if c == '\\' then ['\\', '\\']
    else if n == 8 then ['\\', 'b']
    else if n == 12 then ['\\', 'f']
    else if n == 10 then ['\\', 'n']
    else if n == 13 then ['\\', 'r']
    else if n == 9 then ['\\', 't']
    else if n < 0x20 then ['\\', 'u', '0', '0', Hex.HexDigit(n / 16), Hex.HexDigit(n % 16)]
    else [c]
  }

  function EscapeString(s: string): string
  {
    if |s| == 0 then [] else EscapeChar(s[0]) + EscapeString(s[1..])
  }

  /** A JSON string literal. */
  function Quote(s: string): string
  {
    ['"'] + EscapeString(s) + ['"']
  }

  function Items(xs: seq<string>): string
  {
    if |xs| == 0 then []
    else if |xs| == 1 then Quote(xs[0])
    else Quote(xs[0]) + [','] + Items(xs[1..])
  }

  /** `JSON.stringify(xs)` for an array of strings. */
  function Stringify(xs: seq<string>): string
  {
    ['['] + Items(xs) + [']']
  }

  /**
   * Reads one escape sequence; t starts just after the backslash. Returns the
   * character and how many characters of t the sequence used.
   */
  function Unescape(t: string): (r: Option<(char, nat)>)
    ensures r.Some? ==> 1 <= r.value.1 <= |t|
  {
    if |t| == 0 then None
    else if t[0] == '"' then Some(('"', 1))
    else if t[0] == '\\' then Some(('\\', 1))
    else if t[0] == '/' then Some(('/', 1))
    else if t[0] == 'b' then Some((8 as char, 1))
    else if t[0] == 'f' then Some((12 as char, 1))
    else if t[0] == 'n' then Some((10 as char, 1))
    else if t[0] == 'r' then Some((13 as char, 1))
    else if t[0] == 't' then Some((9 as char, 1))
    else if t[0] == 'u' && |t| >= 5
            && Hex.IsHexChar(t[1]) && Hex.IsHexChar(t[2]) && Hex.IsHexChar(t[3]) && Hex.IsHexChar(t[4]) then
      var code := 4096 * Hex.HexValue(t[1]) + 256 * Hex.HexValue(t[2])
                  + 16 * Hex.HexValue(t[3]) + Hex.HexValue(t[4]);
      if 0xD800 <= code <= 0xDFFF then None else Some((code as char, 5))
    else None
  }

  /**
   * Reads the body of a string literal; t starts just after the opening quote.
   * Returns the decoded text and what follows the closing quote.
   */
  function ParseStr(t: string): (r: Option<(string, string)>)
    ensures r.Some? ==> |r.value.1| < |t| && r.value.1 == t[|t| - |r.value.1|..]
    decreases |t|
  {
    if |t| == 0 then None
    else if t[0] == '"' then Some(([], t[1..]))
    else if t[0] == '\\' then
      match Unescape(t[1..])
      case None => None
      case Some((c, k)) =>
        match ParseStr(t[1 + k..])
        case None => None
        case Some((s, rest)) => Some(([c] + s, rest))
    else if (t[0] as int) < 0x20 then None
    else
      match ParseStr(t[1..])
      case None => None
      case Some((s, rest)) => Some(([t[0]] + s, rest))
  }

  /** Reads `"a","b",...]`: one or more literals separated by commas, then the closing bracket. */
  function ParseItems(u: string): Option<seq<string>>
    decreases |u|
  {
    if |u| == 0 || u[0] != '"' then None
    else
      match ParseStr(u[1..])
      case None => None
      case Some((s, rest)) =>
        if rest == [']'] then Some([s])
        else if |rest| > 0 && rest[0] == ',' then
          match ParseItems(rest[1..])
          case None => None
          case Some(more) => Some([s] + more)
        else None
  }

  /** `JSON.parse` restricted to a compact array of strings; anything else is None. */
  function Parse(t: string): Option<seq<string>>
  {
    if |t| < 2 || t[0] != '[' then None
    else if t[1..] == [']'] then Some([])
    else ParseItems(t[1..])
  }

  lemma UnescapeEscape(c: char, more: string)
    requires |EscapeChar(c)| > 1
    ensures EscapeChar(c)[0] == '\\'
    ensures Unescape(EscapeChar(c)[1..] + more) == Some((c, |EscapeChar(c)| - 1))
  {
    var n := c as int;
    var e := EscapeChar(c);
    if n < 0x20 && n != 8 && n != 12 && n != 10 && n != 13 && n != 9 {
      var t := e[1..] + more;
      assert t[1] == '0' && t[2] == '0';
      assert t[3] == Hex.HexDigit(n / 16) && t[4] == Hex.HexDigit(n % 16);
    }
  }

  /** The decoder reads back exactly the text the encoder escaped. */
  lemma {:induction false} ParseStrEscape(s: string, rest: string)
    ensures ParseStr(EscapeString(s) + ['"'] + rest) == Some((s, rest))
  {
    var t := EscapeString(s) + ['"'] + rest;
    if |s| == 0 {
      assert t == ['"'] + rest;
      ParseStrClose(rest);
    } else {
      var e := EscapeChar(s[0]);
      var tail := EscapeString(s[1..]) + ['"'] + rest;
      ParseStrEscape(s[1..], rest);
      EscapeStringCons(s, rest);
      assert t == e + tail;
      if |e| == 1 {
        ParseStrPlain(s[0], tail, s[1..], rest);
      } else {
        ParseStrEscaped(s[0], tail, s[1..], rest);
      }
      assert [s[0]] + s[1..] == s;
    }
  }

  /** The closing quote ends the literal. */
  lemma ParseStrClose(rest: string)
    ensures ParseStr(['"'] + rest) == Some(([], rest))
  {
    assert (['"'] + rest)[1..] == rest;
  }

  /** Escaping a non-empty string escapes its first character, then the others. */
  lemma EscapeStringCons(s: string, rest: string)
    requires |s| > 0
    ensures EscapeString(s) + ['"'] + rest == EscapeChar(s[0]) + (EscapeString(s[1..]) + ['"'] + rest)
  {
    var a := EscapeChar(s[0]);
    var b := EscapeString(s[1..]);
    assert EscapeString(s) == a + b;
    Reassociate(a, b, ['"'], rest);
  }

  /** Concatenation regrouped. */
  lemma Reassociate3(a: string, b: string, c: string)
    ensures (a + b) + c == a + (b + c)
  {
  }

  /** Concatenation of four pieces regrouped. */
  lemma Reassociate(a: string, b: string, c: string, d: string)
    ensures ((a + b) + c) + d == a + ((b + c) + d)
  {
  }

  /** A character written as itself is read back as itself. */
  lemma ParseStrPlain(c: char, tail: string, s: string, rest: string)
    requires EscapeChar(c) == [c]
    requires ParseStr(tail) == Some((s, rest))
    ensures ParseStr([c] + tail) == Some(([c] + s, rest))
  {
    var t := [c] + tail;
    assert t[0] == c && t[1..] == tail;
  }

  /** An escape sequence is read back as the character it stands for. */
  lemma ParseStrEscaped(c: char, tail: string, s: string, rest: string)
    requires |EscapeChar(c)| > 1
    requires ParseStr(tail) == Some((s, rest))
    ensures ParseStr(EscapeChar(c) + tail) == Some(([c] + s, rest))
  {
    var e := EscapeChar(c);
    UnescapeEscape(c, tail);
    SplitAfterHead(e, tail);
  }

  /** The pieces of e + tail the parser reads: the head, what follows it, and what follows e. */
  lemma SplitAfterHead(e: string, tail: string)
    requires |e| > 0
    ensures (e + tail)[0] == e[0]
    ensures (e + tail)[1..] == e[1..] + tail
    ensures (e + tail)[1 + (|e| - 1)..] == tail
  {
  }

  /** One literal followed by `rest`: the item parser continues exactly where the literal ends. */
  lemma ParseItemsStep(u: string, s: string, rest: string)
    requires |u| > 0 && u[0] == '"' && ParseStr(u[1..]) == Some((s, rest))
    ensures rest == [']'] ==> ParseItems(u) == Some([s])
    ensures |rest| > 1 && rest[0] == ',' ==>
      ParseItems(u) == (match ParseItems(rest[1..]) case None => None case Some(more) => Some([s] + more))
  {
  }

  lemma ConcatShape(e: string, items: string)
    ensures (['"'] + e + ['"']) + [','] + items + [']'] == ['"'] + (e + ['"'] + ([','] + (items + [']'])))
  {
  }

  /** A single literal followed by the closing bracket. */
  lemma ParseItemsSingle(x: string)
    ensures ParseItems(Items([x]) + [']']) == Some([x])
  {
    var u := Items([x]) + [']'];
    var q := EscapeString(x) + ['"'] + [']'];
    assert u == ['"'] + q;
    assert u[1..] == q;
    ParseStrEscape(x, [']']);
    ParseItemsStep(u, x, [']']);
  }

  /** Prepending a literal and a comma to a list the parser reads back. */
  lemma ParseItemsCons(x: string, xs: seq<string>)
    requires |xs| > 0
    requires ParseItems(Items(xs) + [']']) == Some(xs)
    ensures ParseItems(Items([x] + xs) + [']']) == Some([x] + xs)
  {
    var ys := [x] + xs;
    assert ys[0] == x && ys[1..] == xs;
    var more := Items(xs) + [']'];
    var r := [','] + more;
    var e := EscapeString(x);
    var u := Items(ys) + [']'];
    assert Items(ys) == Quote(x) + [','] + Items(xs);
    ConcatShape(e, Items(xs));
    assert u == ['"'] + (e + ['"'] + r);
    assert u[1..] == e + ['"'] + r;
    ParseStrEscape(x, r);
    assert r[1..] == more;
    ParseItemsStep(u, x, r);
  }

  lemma {:induction false} ParseItemsRoundTrip(xs: seq<string>)
    requires |xs| > 0
    ensures ParseItems(Items(xs) + [']']) == Some(xs)
  {
    if |xs| == 1 {
      ParseItemsSingle(xs[0]);
      assert xs == [xs[0]];
    } else {
      ParseItemsRoundTrip(xs[1..]);
      ParseItemsCons(xs[0], xs[1..]);
      assert [xs[0]] + xs[1..] == xs;
    }
  }

  /** What the form serialises, the server parses back to the same list. */
  lemma StringifyParse(xs: seq<string>)
    ensures Parse(Stringify(xs)) == Some(xs)
  {
    var t := Stringify(xs);
    var u := Items(xs) + [']'];
    Reassociate3(['['], Items(xs), [']']);
    assert t[1..] == u;
    if |xs| > 0 {
      ParseItemsRoundTrip(xs);
      assert u[0] == '"';
      assert u != [']'];
    }
  }
}
