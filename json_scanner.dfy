/**
 * The cursor scanner behind the fixed-shape metadata reader
 * (src/fixed_shape_tensor.cpp, from_json). The helper lambdas of the source
 * share one mutable position into the text. Each is specified here as a
 * function from a text and a start position to a value and the position
 * after it, and implemented by a method of Cursor that advances the shared
 * position.
 */
module JsonScanner {
  import opened Wrappers
  import opened JsonText

  /** The runtime_error messages of the scanner, and std::stoll's failures. */
  datatype ScanError =
    | ExpectedOpeningBrace
    | ExpectedOpeningQuote
    | ExpectedClosingQuote
    | ExpectedOpeningBracket
    | ExpectedCommaOrBracket
    | ExpectedColon
    | ExpectedCommaOrBrace
    | UnexpectedEnd
    | InvalidInteger

  /** A value read, paired with the position after it. */
  function Lift<V>(r: Result<V, ScanError>, next: nat): Result<(V, nat), ScanError> {
    match r
    case Ok(v) => Ok((v, next))
    case Err(e) => Err(e)
  }

  /** The first position at or after p that is not whitespace. */
  function SkipWs(text: string, p: nat): (q: nat)
    requires p <= |text|
    ensures p <= q <= |text|
    decreases |text| - p
  {
    if p < |text| && IsSpace(text[p]) then SkipWs(text, p + 1) else p
  }

  /** The first position at or after p holding a double quote, or the end. */
  function QuoteEnd(text: string, p: nat): (q: nat)
    requires p <= |text|
    ensures p <= q <= |text|
    decreases |text| - p
  {
    if p < |text| && text[p] != '"' then QuoteEnd(text, p + 1) else p
  }

  /** The end of the run of decimal digits starting at p. */
  function DigitsEnd(text: string, p: nat): (q: nat)
    requires p <= |text|
    ensures p <= q <= |text|
    decreases |text| - p
  {
    if p < |text| && IsDigit(text[p]) then DigitsEnd(text, p + 1) else p
  }

  /** 1 when a sign character stands at p, 0 otherwise. */
  function SignLength(text: string, p: nat): (k: nat)
    ensures k <= 1
  {
    if p < |text| && (text[p] == '-' || text[p] == '+') then 1 else 0
  }

  /** The number the digits in text[lo..hi] denote (ParseInt calls it on digit runs only). */
  function DigitsValue(text: string, lo: nat, hi: nat): int
    requires lo <= hi <= |text|
    decreases hi - lo
  {
    if hi == lo then 0 else DigitsValue(text, lo, hi - 1) * 10 + (text[hi - 1] as int - '0' as int)
  }

  /**
   * std::stoll applied to the token text[lo..hi], made of an optional sign
   * and decimal digits: fails without digits (invalid_argument) and outside
   * the 64-bit range (out_of_range).
   */
  function Stoll(text: string, lo: nat, hi: nat): (r: Result<int64, ScanError>)
    requires lo + SignLength(text, lo) <= hi <= |text|
    ensures r.Ok? ==> lo + SignLength(text, lo) < hi
  {
    var d := lo + SignLength(text, lo);
    if d == hi then Err(InvalidInteger)
    else
      var magnitude := DigitsValue(text, d, hi);
      var v := if text[lo] == '-' then -magnitude else magnitude;
      if IsInt64(v) then Ok(v) else Err(InvalidInteger)
  }

  /** read_string: a double-quoted run of characters, with no escapes. */
  function ParseString(text: string, p: nat): (r: Result<(string, nat), ScanError>)
    requires p <= |text|
    ensures r.Ok? ==> p < r.value.1 <= |text|
  {
    var q := SkipWs(text, p);
    if q == |text| || text[q] != '"' then Err(ExpectedOpeningQuote)
    else
      var e := QuoteEnd(text, q + 1);
      if e == |text| then Err(ExpectedClosingQuote) else Ok((text[q + 1..e], e + 1))
  }

  /** read_int: optional sign and digits, converted by std::stoll. */
  function ParseInt(text: string, p: nat): (r: Result<(int64, nat), ScanError>)
    requires p <= |text|
    ensures r.Ok? ==> p < r.value.1 <= |text|
  {
    var q := SkipWs(text, p);
    var e := DigitsEnd(text, q + SignLength(text, q));
    Lift(Stoll(text, q, e), e)
  }

  /** What follows the last element of an array: its closing bracket. */
  function CloseList<T>(text: string, p: nat, acc: seq<T>): (r: Result<(seq<T>, nat), ScanError>)
    requires p <= |text|
    ensures r.Ok? <==> p < |text| && text[p] == ']'
    ensures r.Ok? ==> r.value == (acc, p + 1)
  {
    if p == |text| then Err(UnexpectedEnd)
    else if text[p] == ']' then Ok((acc, p + 1))
    else Err(ExpectedCommaOrBracket)
  }

  /** The loop of read_int_array, from its first element on. */
  function ParseIntElems(text: string, p: nat, acc: seq<int64>): (r: Result<(seq<int64>, nat), ScanError>)
    requires p <= |text|
    ensures r.Ok? ==> p < r.value.1 <= |text|
    decreases |text| - p
  {
    match ParseInt(text, p)
    case Err(e) => Err(e)
    case Ok((v, q1)) =>
      var q2 := SkipWs(text, q1);
      if q2 < |text| && text[q2] == ',' then ParseIntElems(text, q2 + 1, acc + [v])
      else CloseList(text, q2, acc + [v])
  }

  /** read_int_array: '[' then either ']' or comma-separated integers and ']'. */
  function ParseIntArray(text: string, p: nat): (r: Result<(seq<int64>, nat), ScanError>)
    requires p <= |text|
    ensures r.Ok? ==> p < r.value.1 <= |text|
  {
    var q := SkipWs(text, p);
    if q == |text| || text[q] != '[' then Err(ExpectedOpeningBracket)
    else
      var u := SkipWs(text, q + 1);
      if u < |text| && text[u] == ']' then Ok(([], u + 1)) else ParseIntElems(text, u, [])
  }

  /** The loop of read_string_array, from its first element on. */
  function ParseStringElems(text: string, p: nat, acc: seq<string>): (r: Result<(seq<string>, nat), ScanError>)
    requires p <= |text|
    ensures r.Ok? ==> p < r.value.1 <= |text|
    decreases |text| - p
  {
    match ParseString(text, p)
    case Err(e) => Err(e)
    case Ok((v, q1)) =>
      var q2 := SkipWs(text, q1);
      if q2 < |text| && text[q2] == ',' then ParseStringElems(text, q2 + 1, acc + [v])
      else CloseList(text, q2, acc + [v])
  }

  /** read_string_array: '[' then either ']' or comma-separated strings and ']'. */
  function ParseStringArray(text: string, p: nat): (r: Result<(seq<string>, nat), ScanError>)
    requires p <= |text|
    ensures r.Ok? ==> p < r.value.1 <= |text|
  {
    var q := SkipWs(text, p);
    if q == |text| || text[q] != '[' then Err(ExpectedOpeningBracket)
    else
      var u := SkipWs(text, q + 1);
      if u < |text| && text[u] == ']' then Ok(([], u + 1)) else ParseStringElems(text, u, [])
  }

  // ---------------------------------------------------------------------
  // Reading back what JsonText writes

  /** The character of w at i; the trigger through which Spells is used. */
  function At(w: string, i: nat): char
    requires i < |w|
  {
    w[i]
  }

  /** The text holds w from position p on. */
  predicate Spells(text: string, p: nat, w: string) {
    p + |w| <= |text| && forall i :: 0 <= i < |w| ==> text[p + i] == At(w, i)
  }

  /** A spelled concatenation spells both of its parts, one after the other. */
  lemma {:induction false} SpellsSplit(text: string, p: nat, a: string, b: string)
    requires Spells(text, p, a + b)
    ensures Spells(text, p, a) && Spells(text, p + |a|, b)
  {
    forall i | 0 <= i < |a|
      ensures text[p + i] == At(a, i)
    {
      assert At(a + b, i) == a[i];
    }
    forall i | 0 <= i < |b|
      ensures text[p + |a| + i] == At(b, i)
    {
      assert At(a + b, |a| + i) == b[i];
    }
  }

  /** A text spells each of its prefixes at position 0. */
  lemma {:induction false} SpellsPrefix(w: string, rest: string)
    ensures Spells(w + rest, 0, w)
  {
    forall i | 0 <= i < |w| ensures (w + rest)[0 + i] == At(w, i) {
    }
  }

  /** A text spells its suffix after its prefix. */
  lemma {:induction false} SpellsTail(w: string, rest: string)
    ensures Spells(w + rest, |w|, rest)
  {
    forall i | 0 <= i < |rest| ensures (w + rest)[|w| + i] == At(rest, i) {
    }
  }

  lemma {:induction false} SpellsChar(text: string, p: nat, w: string, i: nat)
    requires Spells(text, p, w) && i < |w|
    ensures text[p + i] == w[i]
  {
    assert At(w, i) == w[i];
  }

  /** Digits spelled in the text denote what the same digits denote on their own. */
  lemma {:induction false} DigitsValueSpelled(text: string, lo: nat, w: string)
    requires Spells(text, lo, w) && AllDigits(w)
    ensures DigitsValue(text, lo, lo + |w|) == JsonText.DigitsValue(w)
    decreases |w|
  {
    if w != [] {
      var front := w[..|w| - 1];
      forall i | 0 <= i < |front|
        ensures text[lo + i] == At(front, i)
      {
        SpellsChar(text, lo, w, i);
      }
      DigitsValueSpelled(text, lo, front);
      SpellsChar(text, lo, w, |w| - 1);
    }
  }

  /** A spelled run of digits followed by a non-digit or the end is a whole digit run. */
  lemma {:induction false} DigitRun(text: string, p: nat, w: string)
    requires Spells(text, p, w) && AllDigits(w)
    requires p + |w| == |text| || !IsDigit(text[p + |w|])
    ensures DigitsEnd(text, p) == p + |w|
    decreases |w|
  {
    if w != [] {
      var rest := w[1..];
      forall i | 0 <= i < |rest|
        ensures text[p + 1 + i] == At(rest, i)
      {
        SpellsChar(text, p, w, i + 1);
      }
      SpellsChar(text, p, w, 0);
      DigitRun(text, p + 1, rest);
    }
  }

  /** The only end a quote-free run ended by a quote can have. */
  lemma {:induction false} QuoteRun(text: string, p: nat, q: nat)
    requires p <= q < |text|
    requires forall i :: p <= i < q ==> text[i] != '"'
    requires text[q] == '"'
    ensures QuoteEnd(text, p) == q
    decreases q - p
  {
    if p < q {
      QuoteRun(text, p + 1, q);
    }
  }

  /** std::stoll reads back the decimal text of any 64-bit integer. */
  lemma {:induction false} StollIntText(text: string, p: nat, v: int64)
    requires Spells(text, p, IntText(v))
    ensures p + SignLength(text, p) <= p + |IntText(v)|
    ensures Stoll(text, p, p + |IntText(v)|) == Ok(v)
  {
    var w := IntText(v);
    var m: int := v;
    var a: nat := if m < 0 then -m else m;
    var k := if m < 0 then 1 else 0;
    var digits := NatText(a);
    assert w == (if m < 0 then "-" else "") + digits;
    SpellsSplit(text, p, if m < 0 then "-" else "", digits);
    SpellsChar(text, p, w, 0);
    NatTextDigits(if m < 0 then -m else m);
    assert SignLength(text, p) == k;
    NatTextValue(a);
    DigitsValueSpelled(text, p + k, digits);
  }

  /** An integer written in decimal reads back as itself. */
  lemma {:induction false} ParseIntText(text: string, p: nat, v: int64)
    requires Spells(text, p, IntText(v))
    requires p + |IntText(v)| == |text| || !IsDigit(text[p + |IntText(v)|])
    ensures ParseInt(text, p) == Ok((v, p + |IntText(v)|))
  {
    var w := IntText(v);
    var m: int := v;
    var digits := NatText(if m < 0 then -m else m);
    var k := if m < 0 then 1 else 0;
    assert w == (if m < 0 then "-" else "") + digits;
    SpellsSplit(text, p, if m < 0 then "-" else "", digits);
    SpellsChar(text, p, w, 0);
    NatTextDigits(if m < 0 then -m else m);
    assert SignLength(text, p) == k;
    DigitRun(text, p + k, digits);
    StollIntText(text, p, v);
  }

  /** A quoted name without quotes inside reads back as itself. */
  lemma {:induction false} ParseStringText(text: string, p: nat, name: string)
    requires Spells(text, p, Quoted(name)) && '"' !in name
    ensures ParseString(text, p) == Ok((name, p + |Quoted(name)|))
  {
    var e := p + 1 + |name|;
    SpellsSplit(text, p, "\"" + name, "\"");
    SpellsSplit(text, p, "\"", name);
    SpellsChar(text, p, "\"", 0);
    SpellsChar(text, e, "\"", 0);
    forall i | p + 1 <= i < e
      ensures text[i] != '"'
    {
      SpellsChar(text, p + 1, name, i - p - 1);
    }
    QuoteRun(text, p + 1, e);
    assert text[p + 1..e] == name by {
      forall i | 0 <= i < |name|
        ensures text[p + 1..e][i] == name[i]
      {
        SpellsChar(text, p + 1, name, i);
      }
    }
  }

  /** How the element loop goes on after one integer. */
  lemma {:induction false} ParseIntElemsAfter(text: string, p: nat, acc: seq<int64>, v: int64, q: nat, q2: nat)
    requires p <= |text| && ParseInt(text, p) == Ok((v, q)) && q2 == SkipWs(text, q)
    ensures q2 < |text| && text[q2] == ',' ==> ParseIntElems(text, p, acc) == ParseIntElems(text, q2 + 1, acc + [v])
    ensures !(q2 < |text| && text[q2] == ',') ==> ParseIntElems(text, p, acc) == CloseList(text, q2, acc + [v])
  {
  }

  /** An element followed by a closing bracket ends the array. */
  lemma {:induction false} ParseIntElemsLast(text: string, p: nat, acc: seq<int64>, v: int64, q: nat)
    requires p <= |text| && ParseInt(text, p) == Ok((v, q)) && q < |text| && text[q] == ']'
    ensures ParseIntElems(text, p, acc) == Ok((acc + [v], q + 1))
  {
  }

  /** An element followed by a comma goes on after the comma. */
  lemma {:induction false} ParseIntElemsNext(text: string, p: nat, acc: seq<int64>, v: int64, q: nat)
    requires p <= |text| && ParseInt(text, p) == Ok((v, q)) && q < |text| && text[q] == ','
    ensures ParseIntElems(text, p, acc) == ParseIntElems(text, q + 1, acc + [v])
  {
  }

  /**
   * From p on, the text holds integers that read back as xs, separated by
   * commas and followed by the closing bracket.
   */
  predicate IntElemsAt(text: string, p: nat, xs: seq<int64>)
    decreases |xs|
  {
    |xs| > 0 && p <= |text| &&
    var r := ParseInt(text, p);
    r.Ok? && r.value.0 == xs[0] && r.value.1 < |text| &&
    var q := r.value.1;
    if |xs| == 1 then text[q] == ']' else text[q] == ',' && IntElemsAt(text, q + 1, xs[1..])
  }

  /** The position after the closing bracket of IntElemsAt(text, p, xs). */
  function IntElemsEnd(text: string, p: nat, xs: seq<int64>): nat
    requires IntElemsAt(text, p, xs)
    decreases |xs|
  {
    var q := ParseInt(text, p).value.1;
    if |xs| == 1 then q + 1 else IntElemsEnd(text, q + 1, xs[1..])
  }

  /** Moving the head of xs onto the accumulator leaves the total unchanged. */
  lemma ConsAppend<T>(acc: seq<T>, xs: seq<T>)
    requires |xs| > 0
    ensures (acc + [xs[0]]) + xs[1..] == acc + xs
  {
    assert xs == [xs[0]] + xs[1..];
  }

  /** The last integer of a layout, and its closing bracket. */
  lemma {:induction false} ParseIntElemsAtOne(text: string, p: nat, xs: seq<int64>, acc: seq<int64>)
    requires IntElemsAt(text, p, xs) && |xs| == 1
    ensures ParseIntElems(text, p, acc) == Ok((acc + xs, IntElemsEnd(text, p, xs)))
  {
    ParseIntElemsLast(text, p, acc, xs[0], ParseInt(text, p).value.1);
    assert xs == [xs[0]];
  }

  /** The first of several integers of a layout, and the comma after it. */
  lemma {:induction false} ParseIntElemsAtCons(text: string, p: nat, xs: seq<int64>, acc: seq<int64>) returns (q: nat)
    requires IntElemsAt(text, p, xs) && |xs| >= 2
    ensures IntElemsAt(text, q, xs[1..])
    ensures ParseIntElems(text, p, acc) == ParseIntElems(text, q, acc + [xs[0]])
    ensures IntElemsEnd(text, p, xs) == IntElemsEnd(text, q, xs[1..])
  {
    q := ParseInt(text, p).value.1 + 1;
    ParseIntElemsNext(text, p, acc, xs[0], q - 1);
  }

  /** The element loop reads back the integers laid out by IntElemsAt. */
  lemma {:induction false} ParseIntElemsAt(text: string, p: nat, xs: seq<int64>, acc: seq<int64>)
    requires IntElemsAt(text, p, xs)
    ensures ParseIntElems(text, p, acc) == Ok((acc + xs, IntElemsEnd(text, p, xs)))
    decreases |xs|
  {
    if |xs| == 1 {
      ParseIntElemsAtOne(text, p, xs, acc);
    } else {
      var q := ParseIntElemsAtCons(text, p, xs, acc);
      ParseIntElemsAt(text, q, xs[1..], acc + [xs[0]]);
      ConsAppend(acc, xs);
    }
  }

  lemma {:induction false} IntListCons(xs: seq<int64>)
    requires |xs| >= 2
    ensures Join(IntTexts(xs)) + "]" == IntText(xs[0]) + ("," + (Join(IntTexts(xs[1..])) + "]"))
  {
    assert IntTexts(xs)[1..] == IntTexts(xs[1..]);
  }

  /** The joined decimal texts and their closing bracket lay out the integers. */
  lemma {:induction false} JoinedIntsAt(text: string, p: nat, xs: seq<int64>)
    requires |xs| > 0 && Spells(text, p, Join(IntTexts(xs)) + "]")
    ensures IntElemsAt(text, p, xs)
    ensures IntElemsEnd(text, p, xs) == p + |Join(IntTexts(xs))| + 1
    decreases |xs|
  {
    var w := IntText(xs[0]);
    if |xs| == 1 {
      assert Join(IntTexts(xs)) == w;
      SpellsSplit(text, p, w, "]");
      SpellsChar(text, p + |w|, "]", 0);
      ParseIntText(text, p, xs[0]);
    } else {
      var tail := Join(IntTexts(xs[1..])) + "]";
      IntListCons(xs);
      SpellsSplit(text, p, w, "," + tail);
      SpellsSplit(text, p + |w|, ",", tail);
      SpellsChar(text, p + |w|, ",", 0);
      ParseIntText(text, p, xs[0]);
      JoinedIntsAt(text, p + |w| + 1, xs[1..]);
    }
  }

  /** A joined list starts with the first character of its first part. */
  lemma {:induction false} JoinHead(parts: seq<string>)
    requires |parts| > 0 && |parts[0]| > 0
    ensures |Join(parts)| > 0 && Join(parts)[0] == parts[0][0]
  {
    if |parts| > 1 {
      assert Join(parts) == parts[0] + ("," + Join(parts[1..]));
    }
  }

  /** The array reader, given an opening bracket and a layout of elements. */
  lemma {:induction false} ParseIntArrayAt(text: string, p: nat, xs: seq<int64>)
    requires p + 1 < |text| && text[p] == '['
    requires xs == [] ==> text[p + 1] == ']'
    requires xs != [] ==> !IsSpace(text[p + 1]) && text[p + 1] != ']' && IntElemsAt(text, p + 1, xs)
    ensures ParseIntArray(text, p) == Ok((xs, if xs == [] then p + 2 else IntElemsEnd(text, p + 1, xs)))
  {
    if xs != [] {
      ParseIntElemsAt(text, p + 1, xs, []);
      assert [] + xs == xs;
    }
  }

  /** What IntArrayText lays out in the text: a bracket, then the elements. */
  lemma {:induction false} IntArrayLayout(text: string, p: nat, xs: seq<int64>)
    requires Spells(text, p, IntArrayText(xs))
    ensures p + 1 < |text| && text[p] == '['
    ensures xs == [] ==> text[p + 1] == ']' && |IntArrayText(xs)| == 2
    ensures xs != [] ==> !IsSpace(text[p + 1]) && text[p + 1] != ']' && IntElemsAt(text, p + 1, xs)
    ensures xs != [] ==> IntElemsEnd(text, p + 1, xs) == p + |IntArrayText(xs)|
  {
    var body := Join(IntTexts(xs)) + "]";
    assert IntArrayText(xs) == "[" + body;
    SpellsSplit(text, p, "[", body);
    SpellsChar(text, p, "[", 0);
    SpellsChar(text, p + 1, body, 0);
    if xs == [] {
      assert body == "]";
    } else {
      assert IntTexts(xs)[0] == IntText(xs[0]);
      JoinHead(IntTexts(xs));
      assert body[0] == IntText(xs[0])[0];
      IntTextHead(xs[0]);
      JoinedIntsAt(text, p + 1, xs);
    }
  }

  /** An integer array written by IntArrayText reads back as itself. */
  lemma {:induction false} ParseIntArrayText(text: string, p: nat, xs: seq<int64>)
    requires Spells(text, p, IntArrayText(xs))
    ensures ParseIntArray(text, p) == Ok((xs, p + |IntArrayText(xs)|))
  {
    IntArrayLayout(text, p, xs);
    ParseIntArrayAt(text, p, xs);
  }

  /** How the element loop goes on after one name. */
  lemma {:induction false} ParseStringElemsAfter(text: string, p: nat, acc: seq<string>, v: string, q: nat, q2: nat)
    requires p <= |text| && ParseString(text, p) == Ok((v, q)) && q2 == SkipWs(text, q)
    ensures q2 < |text| && text[q2] == ',' ==> ParseStringElems(text, p, acc) == ParseStringElems(text, q2 + 1, acc + [v])
    ensures !(q2 < |text| && text[q2] == ',') ==> ParseStringElems(text, p, acc) == CloseList(text, q2, acc + [v])
  {
  }

  /** A name followed by a closing bracket ends the array. */
  lemma {:induction false} ParseStringElemsLast(text: string, p: nat, acc: seq<string>, v: string, q: nat)
    requires p <= |text| && ParseString(text, p) == Ok((v, q)) && q < |text| && text[q] == ']'
    ensures ParseStringElems(text, p, acc) == Ok((acc + [v], q + 1))
  {
  }

  /** A name followed by a comma goes on after the comma. */
  lemma {:induction false} ParseStringElemsNext(text: string, p: nat, acc: seq<string>, v: string, q: nat)
    requires p <= |text| && ParseString(text, p) == Ok((v, q)) && q < |text| && text[q] == ','
    ensures ParseStringElems(text, p, acc) == ParseStringElems(text, q + 1, acc + [v])
  {
  }

  /** Names that can be written between quotes without escaping. */
  predicate NoQuotes(names: seq<string>) {
    forall i :: 0 <= i < |names| ==> '"' !in names[i]
  }

  /**
   * From p on, the text holds the quote-free names, each between quotes,
   * separated by commas and followed by the closing bracket.
   */
  predicate StringElemsAt(text: string, p: nat, names: seq<string>)
    decreases |names|
  {
    |names| > 0 && '"' !in names[0] && Spells(text, p, Quoted(names[0])) &&
    var q := p + |Quoted(names[0])|;
    q < |text| &&
    if |names| == 1 then text[q] == ']' else text[q] == ',' && StringElemsAt(text, q + 1, names[1..])
  }

  /** The position after the closing bracket of StringElemsAt(text, p, names). */
  function StringElemsEnd(p: nat, names: seq<string>): nat
    requires |names| > 0
    decreases |names|
  {
    var q := p + |Quoted(names[0])|;
    if |names| == 1 then q + 1 else StringElemsEnd(q + 1, names[1..])
  }

  /** The last name of a layout, and its closing bracket. */
  lemma {:induction false} ParseStringElemsAtOne(text: string, p: nat, names: seq<string>, acc: seq<string>)
    requires StringElemsAt(text, p, names) && |names| == 1
    ensures ParseStringElems(text, p, acc) == Ok((acc + names, StringElemsEnd(p, names)))
  {
    ParseStringText(text, p, names[0]);
    ParseStringElemsLast(text, p, acc, names[0], p + |Quoted(names[0])|);
    assert names == [names[0]];
  }

  /** The first of several names of a layout, and the comma after it. */
  lemma {:induction false} ParseStringElemsAtCons(text: string, p: nat, names: seq<string>, acc: seq<string>) returns (q: nat)
    requires StringElemsAt(text, p, names) && |names| >= 2
    ensures StringElemsAt(text, q, names[1..])
    ensures ParseStringElems(text, p, acc) == ParseStringElems(text, q, acc + [names[0]])
    ensures StringElemsEnd(p, names) == StringElemsEnd(q, names[1..])
  {
    q := p + |Quoted(names[0])| + 1;
    ParseStringText(text, p, names[0]);
    ParseStringElemsNext(text, p, acc, names[0], q - 1);
  }

  /** The element loop reads back the names laid out by StringElemsAt. */
  lemma {:induction false} ParseStringElemsAt(text: string, p: nat, names: seq<string>, acc: seq<string>)
    requires StringElemsAt(text, p, names)
    ensures ParseStringElems(text, p, acc) == Ok((acc + names, StringElemsEnd(p, names)))
    decreases |names|
  {
    if |names| == 1 {
      ParseStringElemsAtOne(text, p, names, acc);
    } else {
      var q := ParseStringElemsAtCons(text, p, names, acc);
      ParseStringElemsAt(text, q, names[1..], acc + [names[0]]);
      ConsAppend(acc, names);
    }
  }

  lemma {:induction false} StringListCons(names: seq<string>)
    requires |names| >= 2
    ensures Join(QuotedTexts(names)) + "]" == Quoted(names[0]) + ("," + (Join(QuotedTexts(names[1..])) + "]"))
  {
    assert QuotedTexts(names)[1..] == QuotedTexts(names[1..]);
  }

  /** The joined quoted names and their closing bracket lay out the names. */
  lemma {:induction false} JoinedStringsAt(text: string, p: nat, names: seq<string>)
    requires |names| > 0 && NoQuotes(names) && Spells(text, p, Join(QuotedTexts(names)) + "]")
    ensures StringElemsAt(text, p, names)
    ensures StringElemsEnd(p, names) == p + |Join(QuotedTexts(names))| + 1
    decreases |names|
  {
    var w := Quoted(names[0]);
    if |names| == 1 {
      assert Join(QuotedTexts(names)) == w;
      SpellsSplit(text, p, w, "]");
      SpellsChar(text, p + |w|, "]", 0);
    } else {
      var tail := Join(QuotedTexts(names[1..])) + "]";
      StringListCons(names);
      SpellsSplit(text, p, w, "," + tail);
      SpellsSplit(text, p + |w|, ",", tail);
      SpellsChar(text, p + |w|, ",", 0);
      assert NoQuotes(names[1..]) by {
        forall i | 0 <= i < |names[1..]|
          ensures '"' !in names[1..][i]
        {
          assert names[1..][i] == names[i + 1];
        }
      }
      JoinedStringsAt(text, p + |w| + 1, names[1..]);
    }
  }

  /** The array reader, given an opening bracket and a layout of names. */
  lemma {:induction false} ParseStringArrayAt(text: string, p: nat, names: seq<string>)
    requires p + 1 < |text| && text[p] == '['
    requires names == [] ==> text[p + 1] == ']'
    requires names != [] ==> !IsSpace(text[p + 1]) && text[p + 1] != ']' && StringElemsAt(text, p + 1, names)
    ensures ParseStringArray(text, p) == Ok((names, if names == [] then p + 2 else StringElemsEnd(p + 1, names)))
  {
    if names != [] {
      ParseStringElemsAt(text, p + 1, names, []);
      assert [] + names == names;
    }
  }

  /** What StringArrayText lays out in the text: a bracket, then the names. */
  lemma {:induction false} StringArrayLayout(text: string, p: nat, names: seq<string>)
    requires Spells(text, p, StringArrayText(names)) && NoQuotes(names)
    ensures p + 1 < |text| && text[p] == '['
    ensures names == [] ==> text[p + 1] == ']' && |StringArrayText(names)| == 2
    ensures names != [] ==> !IsSpace(text[p + 1]) && text[p + 1] != ']' && StringElemsAt(text, p + 1, names)
    ensures names != [] ==> StringElemsEnd(p + 1, names) == p + |StringArrayText(names)|
  {
    var body := Join(QuotedTexts(names)) + "]";
    assert StringArrayText(names) == "[" + body;
    SpellsSplit(text, p, "[", body);
    SpellsChar(text, p, "[", 0);
    SpellsChar(text, p + 1, body, 0);
    if names == [] {
      assert body == "]";
    } else {
      assert QuotedTexts(names)[0] == Quoted(names[0]);
      JoinHead(QuotedTexts(names));
      assert body[0] == '"';
      JoinedStringsAt(text, p + 1, names);
    }
  }

  /** A name array written by StringArrayText reads back as itself. */
  lemma {:induction false} ParseStringArrayText(text: string, p: nat, names: seq<string>)
    requires Spells(text, p, StringArrayText(names)) && NoQuotes(names)
    ensures ParseStringArray(text, p) == Ok((names, p + |StringArrayText(names)|))
  {
    StringArrayLayout(text, p, names);
    ParseStringArrayAt(text, p, names);
  }

  /** The text being read and the position every helper of the reader advances. */
  class Cursor {
    const text: string
    var pos: nat

    ghost predicate Valid()
      reads this
    {
      pos <= |text|
    }

    constructor (json: string)
      ensures Valid() && text == json && pos == 0
    {
      text := json;
      pos := 0;
    }

    /** skip_whitespace */
    method SkipWhitespace()
      requires Valid()
      modifies this
      ensures Valid() && pos == SkipWs(text, old(pos))
    {
      while pos < |text| && IsSpace(text[pos])
        invariant old(pos) <= pos <= |text|
        invariant SkipWs(text, pos) == SkipWs(text, old(pos))
      {
        pos := pos + 1;
      }
    }

    /** read_string */
    method ReadString() returns (r: Result<string, ScanError>)
      requires Valid()
      modifies this
      ensures Valid() && Lift(r, pos) == ParseString(text, old(pos))
    {
      SkipWhitespace();
      if pos >= |text| || text[pos] != '"' {
        return Err(ExpectedOpeningQuote);
      }
      pos := pos + 1;
      var start := pos;
      while pos < |text| && text[pos] != '"'
        invariant start <= pos <= |text|
        invariant QuoteEnd(text, pos) == QuoteEnd(text, start)
      {
        pos := pos + 1;
      }
      if pos >= |text| {
        return Err(ExpectedClosingQuote);
      }
      r := Ok(text[start..pos]);
      pos := pos + 1;
    }

    /** read_int */
    method ReadInt() returns (r: Result<int64, ScanError>)
      requires Valid()
      modifies this
      ensures Valid() && Lift(r, pos) == ParseInt(text, old(pos))
    {
      SkipWhitespace();
      var start := pos;
      if pos < |text| && (text[pos] == '-' || text[pos] == '+') {
        pos := pos + 1;
      }
      var digits := pos;
      while pos < |text| && IsDigit(text[pos])
        invariant digits <= pos <= |text|
        invariant DigitsEnd(text, pos) == DigitsEnd(text, digits)
      {
        pos := pos + 1;
      }
      r := Stoll(text, start, pos);
    }

    /** read_int_array */
    method ReadIntArray() returns (r: Result<seq<int64>, ScanError>)
      requires Valid()
      modifies this
      ensures Valid() && Lift(r, pos) == ParseIntArray(text, old(pos))
    {
      var arr: seq<int64> := [];
      SkipWhitespace();
      if pos >= |text| || text[pos] != '[' {
        return Err(ExpectedOpeningBracket);
      }
      pos := pos + 1;
      SkipWhitespace();
      if pos < |text| && text[pos] == ']' {
        pos := pos + 1;
        return Ok(arr);
      }
      r := ReadIntElems(arr);
    }

    /** One element of read_int_array and the whitespace after it. */
    method ReadIntElem(ghost acc: seq<int64>) returns (r: Result<int64, ScanError>)
      requires Valid()
      modifies this
      ensures Valid() && (r.Ok? ==> old(pos) < pos)
      ensures r.Err? ==> ParseIntElems(text, old(pos), acc) == Err(r.error)
      ensures r.Ok? && pos < |text| && text[pos] == ',' ==>
        ParseIntElems(text, old(pos), acc) == ParseIntElems(text, pos + 1, acc + [r.value])
      ensures r.Ok? && !(pos < |text| && text[pos] == ',') ==>
        ParseIntElems(text, old(pos), acc) == CloseList(text, pos, acc + [r.value])
    {
      ghost var p0 := pos;
      r := ReadInt();
      if r.Ok? {
        ghost var q := pos;
        SkipWhitespace();
        ParseIntElemsAfter(text, p0, acc, r.value, q, pos);
      }
    }

    /** The element loop of read_int_array, after the opening bracket. */
    method ReadIntElems(acc: seq<int64>) returns (r: Result<seq<int64>, ScanError>)
      requires Valid()
      modifies this
      ensures Valid() && Lift(r, pos) == ParseIntElems(text, old(pos), acc)
    {
      var arr := acc;
      ghost var whole := ParseIntElems(text, pos, arr);
      while true
        invariant Valid()
        invariant ParseIntElems(text, pos, arr) == whole
        decreases |text| - pos
      {
        var v := ReadIntElem(arr);
        if v.Err? {
          return Err(v.error);
        }
        arr := arr + [v.value];
        if pos >= |text| || text[pos] != ',' {
          break;
        }
        pos := pos + 1;
      }
      r := CloseArray(arr);
    }

    /** read_string_array */
    method ReadStringArray() returns (r: Result<seq<string>, ScanError>)
      requires Valid()
      modifies this
      ensures Valid() && Lift(r, pos) == ParseStringArray(text, old(pos))
    {
      var arr: seq<string> := [];
      SkipWhitespace();
      if pos >= |text| || text[pos] != '[' {
        return Err(ExpectedOpeningBracket);
      }
      pos := pos + 1;
      SkipWhitespace();
      if pos < |text| && text[pos] == ']' {
        pos := pos + 1;
        return Ok(arr);
      }
      r := ReadStringElems(arr);
    }

    /** One element of read_string_array and the whitespace after it. */
    method ReadStringElem(ghost acc: seq<string>) returns (r: Result<string, ScanError>)
      requires Valid()
      modifies this
      ensures Valid() && (r.Ok? ==> old(pos) < pos)
      ensures r.Err? ==> ParseStringElems(text, old(pos), acc) == Err(r.error)
      ensures r.Ok? && pos < |text| && text[pos] == ',' ==>
        ParseStringElems(text, old(pos), acc) == ParseStringElems(text, pos + 1, acc + [r.value])
      ensures r.Ok? && !(pos < |text| && text[pos] == ',') ==>
        ParseStringElems(text, old(pos), acc) == CloseList(text, pos, acc + [r.value])
    {
      ghost var p0 := pos;
      r := ReadString();
      if r.Ok? {
        ghost var q := pos;
        SkipWhitespace();
        ParseStringElemsAfter(text, p0, acc, r.value, q, pos);
      }
    }

    /** The element loop of read_string_array, after the opening bracket. */
    method ReadStringElems(acc: seq<string>) returns (r: Result<seq<string>, ScanError>)
      requires Valid()
      modifies this
      ensures Valid() && Lift(r, pos) == ParseStringElems(text, old(pos), acc)
    {
      var arr := acc;
      ghost var whole := ParseStringElems(text, pos, arr);
      while true
        invariant Valid()
        invariant ParseStringElems(text, pos, arr) == whole
        decreases |text| - pos
      {
        var v := ReadStringElem(arr);
        if v.Err? {
          return Err(v.error);
        }
        arr := arr + [v.value];
        if pos >= |text| || text[pos] != ',' {
          break;
        }
        pos := pos + 1;
      }
      r := CloseArray(arr);
    }

    /** The end of both array loops: the closing bracket, or the error for what stands there. */
    method CloseArray<T>(arr: seq<T>) returns (r: Result<seq<T>, ScanError>)
      requires Valid()
      modifies this
      ensures Valid() && Lift(r, pos) == CloseList(text, old(pos), arr)
    {
      if pos >= |text| {
        return Err(UnexpectedEnd);
      }
      if text[pos] != ']' {
        return Err(ExpectedCommaOrBracket);
      }
      pos := pos + 1;
      r := Ok(arr);
    }
  }
}
