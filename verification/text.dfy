/** String helpers shared by the Python and TypeScript parts of the model.
    Strings are `seq<char>`; there is no encoding or normalisation. */
module Text {

  /** Python `s.startswith(p)` / JavaScript `s.startsWith(p)`. */
  predicate StartsWith(s: string, p: string) {
    |p| <= |s| && s[..|p|] == p
  }

  /** Python `s.endswith(p)` / JavaScript `s.endsWith(p)`. */
  predicate EndsWith(s: string, p: string) {
    |p| <= |s| && s[|s| - |p|..] == p
  }

  /** Python `p in s` for strings: `p` occurs in `s` at some position. */
  predicate Contains(s: string, p: string)
    decreases |s|
  {
    StartsWith(s, p) || (|s| > 0 && Contains(s[1..], p))
  }

  /** JavaScript `chunks.join("")`: the chunks concatenated in order. */
  function Concat(chunks: seq<string>): string {
    if chunks == [] then "" else chunks[0] + Concat(chunks[1..])
  }

  /** Concatenating two lists of chunks is concatenating their joins. */
  lemma {:induction false} ConcatAppend(a: seq<string>, b: seq<string>)
    ensures Concat(a + b) == Concat(a) + Concat(b)
    decreases |a|
  {
    if a == [] {
      assert a + b == b;
    } else {
      assert (a + b)[1..] == a[1..] + b;
      ConcatAppend(a[1..], b);
    }
  }

  /** Splitting one chunk in two anywhere leaves the joined text unchanged,
      so any two chunkings of a text join to the same string. */
  lemma SplitChunkPreservesConcat(chunks: seq<string>, i: nat, cut: nat)
    requires i < |chunks| && cut <= |chunks[i]|
    ensures Concat(chunks[..i] + [chunks[i][..cut], chunks[i][cut..]] + chunks[i + 1..])
         == Concat(chunks)
  {
    var pre, post := chunks[..i], chunks[i + 1..];
    ConcatAppend(pre + [chunks[i][..cut], chunks[i][cut..]], post);
    ConcatAppend(pre, [chunks[i][..cut], chunks[i][cut..]]);
    ConcatAppend(pre + [chunks[i]], post);
    ConcatAppend(pre, [chunks[i]]);
    assert chunks == pre + [chunks[i]] + post;
    assert chunks[i][..cut] + chunks[i][cut..] == chunks[i];
    var two := [chunks[i][..cut], chunks[i][cut..]];
    assert two[1..] == [chunks[i][cut..]];
    assert [chunks[i][cut..]][1..] == [];
    assert Concat([chunks[i][..cut], chunks[i][cut..]]) == chunks[i];
    assert [chunks[i]][1..] == [];
  }

  /** The decimal digit character of `d`. */
  function DigitChar(d: nat): char
    requires d < 10
  {
    ['0', '1', '2', '3', '4', '5', '6', '7', '8', '9'][d]
  }

  /** The value of a decimal digit character. */
  function DigitValue(c: char): (r: nat)
    requires '0' <= c <= '9'
    ensures r < 10
  {
    (c as int - '0' as int) as nat
  }

  /** Digit characters read back as written. */
  lemma DigitRoundTrip(d: nat)
    requires d < 10
    ensures DigitValue(DigitChar(d)) == d
  {
    var digits := ['0', '1', '2', '3', '4', '5', '6', '7', '8', '9'];
    assert digits[d] as int == '0' as int + d;
  }

  /** Python `str(n)` / JavaScript `String(n)` of a natural number. */
  function Decimal(n: nat): (r: string)
    ensures |r| >= 1
    ensures forall i :: 0 <= i < |r| ==> '0' <= r[i] <= '9'
    decreases n
  {
    if n < 10 then [DigitChar(n)] else Decimal(n / 10) + [DigitChar(n % 10)]
  }

  /** Reads a non-empty string of decimal digits back as a number. */
  function ParseDecimal(s: string): nat
    requires forall i :: 0 <= i < |s| ==> '0' <= s[i] <= '9'
    decreases |s|
  {
    if |s| == 0 then 0 else ParseDecimal(s[..|s| - 1]) * 10 + DigitValue(s[|s| - 1])
  }

  /** Decimal rendering is faithful: reading the digits back gives the number. */
  lemma {:induction false} DecimalRoundTrip(n: nat)
    ensures ParseDecimal(Decimal(n)) == n
    decreases n
  {
    var r := Decimal(n);
    DigitRoundTrip(n % 10);
    if n >= 10 {
      var front := Decimal(n / 10);
      DecimalRoundTrip(n / 10);
      assert r == front + [DigitChar(n % 10)];
      assert r[..|r| - 1] == front;
      assert ParseDecimal(r) == ParseDecimal(front) * 10 + n % 10;
    } else {
      assert r == [DigitChar(n)];
      assert r[..0] == [];
    }
  }
}
