/**
 * Text building blocks of the compact JSON written by both tensor metadata
 * types: decimal integers, quoted names, comma-joined lists and bracketed
 * arrays, all without whitespace.
 */
module JsonText {
  import opened Wrappers

  /** std::isspace in the C locale: space, \t, \n, \v, \f, \r. */
  predicate IsSpace(c: char) {
    c == ' ' || 9 <= c as int <= 13
  }

  /** std::isdigit: '0'..'9'. */
  predicate IsDigit(c: char) {
    '0' <= c <= '9'
  }

  predicate AllDigits(s: string) {
    forall i :: 0 <= i < |s| ==> IsDigit(s[i])
  }

  function DigitChar(d: nat): (c: char)
    requires d < 10
    ensures IsDigit(c)
  {
    (48 + d) as char
  }

  function DigitValue(c: char): (d: nat)
    requires IsDigit(c)
    ensures d < 10 && DigitChar(d) == c
  {
    c as int - 48
  }

  /** The decimal digits of n, most significant first, without leading zeros. */
  function NatText(n: nat): (r: string)
    ensures |r| > 0
    decreases n
  {
    if n < 10 then [DigitChar(n)] else NatText(n / 10) + [DigitChar(n % 10)]
  }

  /** The number a run of decimal digits denotes. */
  function DigitsValue(ds: string): nat
    requires AllDigits(ds)
  {
    if ds == [] then 0 else DigitsValue(ds[..|ds| - 1]) * 10 + DigitValue(ds[|ds| - 1])
  }

  /** The decimal text of n is made of digits only. */
  lemma {:induction false} NatTextDigits(n: nat)
    ensures AllDigits(NatText(n))
    decreases n
  {
    if n >= 10 {
      NatTextDigits(n / 10);
    }
  }

  /** Reading back the digits of n gives n. */
  lemma {:induction false} NatTextValue(n: nat)
    ensures AllDigits(NatText(n)) && DigitsValue(NatText(n)) == n
    decreases n
  {
    NatTextDigits(n);
    if n >= 10 {
      NatTextValue(n / 10);
      var t := NatText(n);
      assert t[..|t| - 1] == NatText(n / 10);
    }
  }

  /** std::to_string / operator<< of a signed integer. */
  function IntText(v: int): (r: string)
    ensures |r| > 0
  {
    if v < 0 then "-" + NatText(-v) else NatText(v)
  }

  /** The decimal text of an integer starts with a sign or a digit. */
  lemma IntTextHead(v: int)
    ensures IntText(v)[0] == '-' || IsDigit(IntText(v)[0])
  {
    if v >= 0 {
      NatTextDigits(v);
    }
  }

  /** A name between double quotes, written without any escaping. */
  function Quoted(s: string): string {
    "\"" + s + "\""
  }

  /** A key and its value as a JSON object member. */
  function MemberText(key: string, value: string): string {
    Quoted(key) + ":" + value
  }

  /** The parts separated by commas. */
  function Join(parts: seq<string>): string {
    if |parts| == 0 then ""
    else if |parts| == 1 then parts[0]
    else parts[0] + "," + Join(parts[1..])
  }

  /** Appending one part extends the joined text by a comma and that part. */
  lemma {:induction false} JoinSnoc(parts: seq<string>, p: string)
    ensures Join(parts + [p]) == if parts == [] then p else Join(parts) + "," + p
  {
    if |parts| >= 2 {
      assert (parts + [p])[1..] == parts[1..] + [p];
      JoinSnoc(parts[1..], p);
    } else if |parts| == 1 {
      assert (parts + [p])[1..] == [p];
    }
  }

  /**
   * Writing one more part after a comma-joined prefix: a comma first unless
   * nothing was written yet.
   */
  lemma JoinExtend(s: string, parts: seq<string>, p: string)
    ensures s + Join(parts + [p]) == (if parts == [] then s else s + Join(parts) + ",") + p
  {
    JoinSnoc(parts, p);
  }

  /** The decimal text of each integer. */
  function IntTexts(xs: seq<int>): (r: seq<string>)
    ensures |r| == |xs|
  {
    if xs == [] then [] else [IntText(xs[0])] + IntTexts(xs[1..])
  }

  /** The texts of a concatenation are the concatenated texts. */
  lemma {:induction false} IntTextsAppend(a: seq<int>, b: seq<int>)
    ensures IntTexts(a + b) == IntTexts(a) + IntTexts(b)
  {
    if a != [] {
      assert (a + b)[1..] == a[1..] + b;
      IntTextsAppend(a[1..], b);
    } else {
      assert a + b == b;
    }
  }

  /** The texts of a prefix one element longer. */
  lemma IntTextsSnoc(xs: seq<int>, i: nat)
    requires i < |xs|
    ensures IntTexts(xs[..i + 1]) == IntTexts(xs[..i]) + [IntText(xs[i])]
  {
    assert xs[..i + 1] == xs[..i] + [xs[i]];
    IntTextsAppend(xs[..i], [xs[i]]);
    assert [xs[i]][1..] == [];
  }

  /** Each name between quotes. */
  function QuotedTexts(names: seq<string>): (r: seq<string>)
    ensures |r| == |names|
  {
    if names == [] then [] else [Quoted(names[0])] + QuotedTexts(names[1..])
  }

  /** The quoted names of a concatenation are the concatenated quoted names. */
  lemma {:induction false} QuotedTextsAppend(a: seq<string>, b: seq<string>)
    ensures QuotedTexts(a + b) == QuotedTexts(a) + QuotedTexts(b)
  {
    if a != [] {
      assert (a + b)[1..] == a[1..] + b;
      QuotedTextsAppend(a[1..], b);
    } else {
      assert a + b == b;
    }
  }

  /** The quoted names of a prefix one element longer. */
  lemma QuotedTextsSnoc(names: seq<string>, i: nat)
    requires i < |names|
    ensures QuotedTexts(names[..i + 1]) == QuotedTexts(names[..i]) + [Quoted(names[i])]
  {
    assert names[..i + 1] == names[..i] + [names[i]];
    QuotedTextsAppend(names[..i], [names[i]]);
    assert [names[i]][1..] == [];
  }

  /** A nullable dimension: its decimal value, or null when free. */
  function NullableText(x: Option<int>): string {
    if x.Some? then IntText(x.value) else "null"
  }

  /** The text of each nullable dimension. */
  function NullableTexts(xs: seq<Option<int>>): (r: seq<string>)
    ensures |r| == |xs|
  {
    if xs == [] then [] else [NullableText(xs[0])] + NullableTexts(xs[1..])
  }

  /** The nullable texts of a concatenation are the concatenated texts. */
  lemma {:induction false} NullableTextsAppend(a: seq<Option<int>>, b: seq<Option<int>>)
    ensures NullableTexts(a + b) == NullableTexts(a) + NullableTexts(b)
  {
    if a != [] {
      assert (a + b)[1..] == a[1..] + b;
      NullableTextsAppend(a[1..], b);
    } else {
      assert a + b == b;
    }
  }

  /** The nullable texts of a prefix one element longer. */
  lemma NullableTextsSnoc(xs: seq<Option<int>>, i: nat)
    requires i < |xs|
    ensures NullableTexts(xs[..i + 1]) == NullableTexts(xs[..i]) + [NullableText(xs[i])]
  {
    assert xs[..i + 1] == xs[..i] + [xs[i]];
    NullableTextsAppend(xs[..i], [xs[i]]);
    assert [xs[i]][1..] == [];
  }

  function IntArrayText(xs: seq<int>): string {
    "[" + Join(IntTexts(xs)) + "]"
  }

  function StringArrayText(names: seq<string>): string {
    "[" + Join(QuotedTexts(names)) + "]"
  }

  function NullableArrayText(xs: seq<Option<int>>): string {
    "[" + Join(NullableTexts(xs)) + "]"
  }
}
