/** The text form of the recent-search list kept in browser storage
    (frontend/src/app/stock.service.ts): what `JSON.stringify` writes for an
    array of search-history objects, and a reader for exactly that form. */
module HistoryJson {
  import opened Wrappers
  import opened Text

  /** One remembered search. `date` is an ISO timestamp, opaque here. */
  datatype SearchHistory = SearchHistory(stockName: string, ticker: string, date: string)

  // ---------------------------------------------------------------------
  // String literals
  // ---------------------------------------------------------------------

  /** The lower-case hexadecimal digit of `d`. */
  function HexDigit(d: nat): char
    requires d < 16
  {
    "0123456789abcdef"[d]
  }

  /** The value of a hexadecimal digit of either case. */
  function HexValue(c: char): (r: Option<nat>)
    ensures r.Some? ==> r.value < 16
  {
    if '0' <= c <= '9' then Some(c as int - '0' as int)
    else if 'a' <= c <= 'f' then Some(c as int - 'a' as int + 10)
    else if 'A' <= c <= 'F' then Some(c as int - 'A' as int + 10)
    else None
  }

  /** Hexadecimal digits read back as written. */
  lemma HexRoundTrip(d: nat)
    requires d < 16
    ensures HexValue(HexDigit(d)) == Some(d)
  {
    var digits := "0123456789abcdef";
    if d < 10 {
      assert digits[d] as int == '0' as int + d;
    } else {
      assert digits[d] as int == 'a' as int + d - 10;
    }
  }

  /** How `JSON.stringify` writes one character inside a string literal: the
      quote and the backslash are escaped, the five control characters with a
      short form use it, the other control characters use a lower-case
      `\u00XX` escape, and every other character stands for itself. */
  function EscapeChar(c: char): (r: string)
    ensures |r| >= 1
    ensures r[0] == '\\' <==> c == '"' || c == '\\' || c < ' '
  {
    if c == '"' then "\\\""
    else if c == '\\' then "\\\\"
    else if c == 8 as char then "\\b"
    else if c == 9 as char then "\\t"
    else if c == 10 as char then "\\n"
    else if c == 12 as char then "\\f"
    else if c == 13 as char then "\\r"
    else if c < ' ' then "\\u00" + [HexDigit(c as int / 16), HexDigit(c as int % 16)]
    else [c]
  }

  /** The body of a string literal for `x`, written in front of `t`. The
      writers below all take the text that follows, so that what they write
      nests to the right. */
  function EncodeChars(x: string, t: string): (r: string)
    ensures x == [] ==> r == t
  {
    if x == [] then t else EscapeChar(x[0]) + EncodeChars(x[1..], t)
  }

  /** A whole string literal for `x`, written in front of `t`. */
  function Quote(x: string, t: string): string {
    "\"" + EncodeChars(x, "\"" + t)
  }

  /** The code point of four hexadecimal digits, when all four are digits. */
  function Hex4(s: string): (r: Option<nat>)
    requires |s| == 4
    ensures r.Some? ==> r.value < 0x10000
  {
    match (HexValue(s[0]), HexValue(s[1]), HexValue(s[2]), HexValue(s[3]))
    case (Some(a), Some(b), Some(c), Some(d)) => Some(((a * 16 + b) * 16 + c) * 16 + d)
    case _ => None
  }

  /** Reads the character of an escape; `s` follows the backslash. A `\u`
      escape of a surrogate is not decoded. */
  function DecodeEscape(s: string): (r: Option<(char, string)>)
    ensures r.Some? ==> |r.value.1| < |s|
  {
    if |s| == 0 then None
    else if s[0] == '"' then Some(('"', s[1..]))
    else if s[0] == '\\' then Some(('\\', s[1..]))
    else if s[0] == '/' then Some(('/', s[1..]))
    else if s[0] == 'b' then Some((8 as char, s[1..]))
    else if s[0] == 't' then Some((9 as char, s[1..]))
    else if s[0] == 'n' then Some((10 as char, s[1..]))
    else if s[0] == 'f' then Some((12 as char, s[1..]))
    else if s[0] == 'r' then Some((13 as char, s[1..]))
    else if s[0] == 'u' && |s| >= 5 then
      match Hex4(s[1..5])
      case None => None
      case Some(v) => if 0xD800 <= v <= 0xDFFF then None else Some((v as char, s[5..]))
    else None
  }

  /** `c` in front of a decoded text, failures passed through. */
  function Prepend(c: char, r: Option<(string, string)>): Option<(string, string)> {
    match r
    case None => None
    case Some((t, rest)) => Some(([c] + t, rest))
  }

  /** Reads the body of a string literal up to and including its closing
      quote; gives the text and what follows. A raw control character is an
      error, as in `JSON.parse`. */
  function DecodeChars(s: string): (r: Option<(string, string)>)
    ensures r.Some? ==> |r.value.1| < |s|
    decreases |s|
  {
    if |s| == 0 then None
    else if s[0] == '"' then Some(("", s[1..]))
    else if s[0] == '\\' then
      match DecodeEscape(s[1..])
      case None => None
      case Some((c, rest)) => Prepend(c, DecodeChars(rest))
    else if s[0] < ' ' then None
    else Prepend(s[0], DecodeChars(s[1..]))
  }

  /** A character with a two-character escape reads back as itself. */
  lemma DecodeShortEscape(c: char, t: string)
    requires c == '"' || c == '\\' || c == 8 as char || c == 9 as char || c == 10 as char
             || c == 12 as char || c == 13 as char
    ensures DecodeChars(EscapeChar(c) + t) == Prepend(c, DecodeChars(t))
  {
    var s := EscapeChar(c) + t;
    assert |EscapeChar(c)| == 2;
    assert s[1..] == [EscapeChar(c)[1]] + t;
    assert s[1..][1..] == t;
  }

  /** A control character written as `\u00XX` reads back as itself. */
  lemma DecodeUnicodeEscape(c: char, t: string)
    requires c < ' ' && c != 8 as char && c != 9 as char && c != 10 as char
             && c != 12 as char && c != 13 as char
    ensures DecodeChars(EscapeChar(c) + t) == Prepend(c, DecodeChars(t))
  {
    var s := EscapeChar(c) + t;
    var hi, lo := c as int / 16, c as int % 16;
    HexRoundTrip(0);
    HexRoundTrip(hi);
    HexRoundTrip(lo);
    assert EscapeChar(c) == "\\u00" + [HexDigit(hi), HexDigit(lo)];
    assert s[1..][1..5] == ['0', '0', HexDigit(hi), HexDigit(lo)];
    assert s[1..][5..] == t;
  }

  /** One escaped character reads back as itself, whatever follows. */
  lemma DecodeEscapedChar(c: char, t: string)
    ensures DecodeChars(EscapeChar(c) + t) == Prepend(c, DecodeChars(t))
  {
    if c == '"' || c == '\\' || c == 8 as char || c == 9 as char || c == 10 as char
       || c == 12 as char || c == 13 as char {
      DecodeShortEscape(c, t);
    } else if c < ' ' {
      DecodeUnicodeEscape(c, t);
    } else {
      assert (EscapeChar(c) + t)[1..] == t;
    }
  }

  /** A literal's body reads back as the text it encodes. */
  lemma {:induction false} EncodeCharsRoundTrip(x: string, t: string)
    ensures DecodeChars(EncodeChars(x, "\"" + t)) == Some((x, t))
    decreases |x|
  {
    if x != [] {
      var rest := EncodeChars(x[1..], "\"" + t);
      DecodeEscapedChar(x[0], rest);
      EncodeCharsRoundTrip(x[1..], t);
      assert [x[0]] + x[1..] == x;
    }
  }

  /** The rest of `s` after the literal `lit`, when `s` starts with it. */
  function Expect(s: string, lit: string): (r: Option<string>)
    ensures r.Some? <==> StartsWith(s, lit)
    ensures r.Some? ==> |r.value| == |s| - |lit|
  {
    if StartsWith(s, lit) then Some(s[|lit|..]) else None
  }

  /** A literal in front is consumed. */
  lemma ExpectPrefix(lit: string, t: string)
    ensures Expect(lit + t, lit) == Some(t)
  {
    assert (lit + t)[..|lit|] == lit;
    assert (lit + t)[|lit|..] == t;
  }

  /** Reads a whole string literal and gives the text and what follows. */
  function DecodeString(s: string): (r: Option<(string, string)>)
    ensures r.Some? ==> |r.value.1| < |s|
  {
    match Expect(s, "\"")
    case None => None
    case Some(body) => DecodeChars(body)
  }

  /** A string literal reads back as its text. */
  lemma QuoteRoundTrip(x: string, t: string)
    ensures DecodeString(Quote(x, t)) == Some((x, t))
  {
    ExpectPrefix("\"", EncodeChars(x, "\"" + t));
    EncodeCharsRoundTrip(x, t);
  }

  // ---------------------------------------------------------------------
  // Entries and the list
  // ---------------------------------------------------------------------

  const NameKey: string := "{\"stockName\":"
  const TickerKey: string := ",\"ticker\":"
  const DateKey: string := ",\"date\":"

  /** One property (its name, colon included, and its string value),
      written in front of `t`. */
  function Field(key: string, x: string, t: string): string {
    key + Quote(x, t)
  }

  /** `JSON.stringify` of one entry, written in front of `t`: its three
      properties in declaration order, without whitespace. */
  function EncodeEntry(e: SearchHistory, t: string): string {
    Field(NameKey, e.stockName, Field(TickerKey, e.ticker, Field(DateKey, e.date, "}" + t)))
  }

  /** Reads a property name `key` (with its colon and the comma before it)
      and then the string value. */
  function DecodeField(s: string, key: string): (r: Option<(string, string)>)
    ensures r.Some? ==> |r.value.1| < |s|
  {
    match Expect(s, key)
    case None => None
    case Some(rest) => DecodeString(rest)
  }

  /** A property reads back as its value. */
  lemma FieldRoundTrip(key: string, x: string, t: string)
    ensures DecodeField(Field(key, x, t), key) == Some((x, t))
  {
    ExpectPrefix(key, Quote(x, t));
    QuoteRoundTrip(x, t);
  }

  /** Reads one entry and gives it and what follows. */
  function DecodeEntry(s: string): (r: Option<(SearchHistory, string)>)
    ensures r.Some? ==> |r.value.1| < |s|
  {
    match DecodeField(s, NameKey)
    case None => None
    case Some((name, s1)) =>
      match DecodeField(s1, TickerKey)
      case None => None
      case Some((ticker, s2)) =>
        match DecodeField(s2, DateKey)
        case None => None
        case Some((date, s3)) =>
          match Expect(s3, "}")
          case None => None
          case Some(s4) => Some((SearchHistory(name, ticker, date), s4))
  }

  /** An entry reads back as itself, whatever follows. */
  lemma EntryRoundTrip(e: SearchHistory, t: string)
    ensures DecodeEntry(EncodeEntry(e, t)) == Some((e, t))
  {
    var s3 := "}" + t;
    var s2 := Field(DateKey, e.date, s3);
    var s1 := Field(TickerKey, e.ticker, s2);
    FieldRoundTrip(NameKey, e.stockName, s1);
    FieldRoundTrip(TickerKey, e.ticker, s2);
    FieldRoundTrip(DateKey, e.date, s3);
    ExpectPrefix("}", t);
  }

  /** The entries of a non-empty list separated by commas, and the closing
      bracket. */
  function EncodeElements(xs: seq<SearchHistory>): string
    requires xs != []
  {
    if |xs| == 1 then EncodeEntry(xs[0], "]")
    else EncodeEntry(xs[0], "," + EncodeElements(xs[1..]))
  }

  /** `JSON.stringify` of the whole list. */
  function EncodeHistory(xs: seq<SearchHistory>): (r: string)
    ensures |r| >= 2 && r[0] == '['
  {
    if xs == [] then "[]" else "[" + EncodeElements(xs)
  }

  /** Reads comma-separated entries up to the closing bracket, which must end
      the text. */
  function DecodeElements(s: string): (r: Option<seq<SearchHistory>>)
    ensures r.Some? ==> |r.value| >= 1
    decreases |s|
  {
    match DecodeEntry(s)
    case None => None
    case Some((e, rest)) =>
      if rest == "]" then Some([e])
      else if |rest| >= 1 && rest[0] == ',' then
        match DecodeElements(rest[1..])
        case None => None
        case Some(more) => Some([e] + more)
      else None
  }

  /** `JSON.parse` of a stored list, for text in the form `JSON.stringify`
      writes; `None` for anything else. */
  function DecodeHistory(s: string): (r: Option<seq<SearchHistory>>)
    ensures s == "[]" ==> r == Some([])
  {
    if s == "[]" then Some([])
    else if |s| >= 1 && s[0] == '[' then DecodeElements(s[1..])
    else None
  }

  /** Reading a list whose first entry is followed by a comma: that entry,
      then the rest of the list. */
  lemma DecodeElementsCons(s: string, e: SearchHistory, tail: string, more: seq<SearchHistory>)
    requires DecodeEntry(s) == Some((e, "," + tail)) && DecodeElements(tail) == Some(more)
    ensures DecodeElements(s) == Some([e] + more)
  {
    var r := "," + tail;
    assert r[0] == ',' && r != "]";
    assert r[1..] == tail;
  }

  /** The last entry is followed by the closing bracket. */
  lemma LastElement(xs: seq<SearchHistory>)
    requires |xs| == 1
    ensures DecodeElements(EncodeEntry(xs[0], "]")) == Some(xs)
  {
    EntryRoundTrip(xs[0], "]");
    assert [xs[0]] == xs;
  }

  /** An entry followed by a comma and an encoded list reads back as that
      entry in front of the list. */
  lemma ConsElement(s: string, e: SearchHistory, tail: string, more: seq<SearchHistory>)
    requires s == EncodeEntry(e, "," + tail) && DecodeElements(tail) == Some(more)
    ensures DecodeElements(s) == Some([e] + more)
  {
    EntryRoundTrip(e, "," + tail);
    DecodeElementsCons(s, e, tail, more);
  }

  /** The list encoding unfolds one entry at a time. */
  lemma EncodeElementsUnfold(xs: seq<SearchHistory>, tail: string)
    requires |xs| > 1 && tail == EncodeElements(xs[1..])
    ensures EncodeElements(xs) == EncodeEntry(xs[0], "," + tail)
  {
  }

  /** A non-empty sequence is its head followed by its tail. */
  lemma ConsSplit<T>(xs: seq<T>)
    requires xs != []
    ensures [xs[0]] + xs[1..] == xs
  {
  }

  /** A non-empty list of entries reads back as itself. */
  lemma {:induction false} ElementsRoundTrip(xs: seq<SearchHistory>)
    requires xs != []
    ensures DecodeElements(EncodeElements(xs)) == Some(xs)
    decreases |xs|
  {
    if |xs| == 1 {
      LastElement(xs);
    } else {
      var tail := EncodeElements(xs[1..]);
      EncodeElementsUnfold(xs, tail);
      ElementsRoundTrip(xs[1..]);
      ConsElement(EncodeElements(xs), xs[0], tail, xs[1..]);
      ConsSplit(xs);
    }
  }

  /** Whatever the list holds, reading back what was written gives it back. */
  lemma HistoryRoundTrip(xs: seq<SearchHistory>)
    ensures DecodeHistory(EncodeHistory(xs)) == Some(xs)
  {
    var s := EncodeHistory(xs);
    if xs != [] {
      assert s[1..] == EncodeElements(xs);
      assert s != "[]" by {
        assert |EncodeElements(xs)| != 1;
      }
      ElementsRoundTrip(xs);
    }
  }
}
