/**
 * The parameters of the Arrow fixed-shape tensor extension type
 * (src/fixed_shape_tensor.cpp): the validator, the element count, the JSON
 * writer, the hand-rolled JSON reader and the installation and retrieval of
 * the serialized parameters in a field's key/value metadata.
 */
module FixedShapeTensor {
  import opened Wrappers
  import opened Permutations
  import opened JsonText
  import opened JsonScanner
  import opened ExtensionTags

  /** fixed_shape_tensor_extension::EXTENSION_NAME */
  const ExtensionName: string := "arrow.fixed_shape_tensor"

  const ShapeKey: string := "shape"
  const DimNamesKey: string := "dim_names"
  const PermutationKey: string := "permutation"

  /** fixed_shape_tensor_extension::metadata */
  datatype Metadata = Metadata(
    shape: seq<int64>,
    dimNames: Option<seq<string>>,
    permutation: Option<seq<int64>>)

  /** The metadata from_json starts from: an empty shape, no names, no permutation. */
  const Empty: Metadata := Metadata([], None, None)

  /** Why reading or extracting the parameters fails. */
  datatype Error =
    | Scan(cause: ScanError)
    | UnknownKey(key: string)
    | MissingShape
    | InvalidMetadata
    | MissingMetadata
    | MissingMetadataValue

  predicate AllPositive(s: seq<int>) {
    forall i :: 0 <= i < |s| ==> s[i] > 0
  }

  /**
   * What the Arrow format demands of the parameters: a non-empty shape of
   * positive extents, as many names as dimensions, and a permutation of
   * the dimension indices [0, N).
   */
  predicate WellFormed(m: Metadata) {
    && |m.shape| > 0
    && AllPositive(m.shape)
    && (m.dimNames.Some? ==> |m.dimNames.value| == |m.shape|)
    && (m.permutation.Some? ==> |m.permutation.value| == |m.shape| && IsPermutation(m.permutation.value))
  }

  // ---------------------------------------------------------------------
  // is_valid

  /** metadata::is_valid: early returns, and a sorted copy compared with 0..N-1. */
  method IsValid(m: Metadata) returns (b: bool)
    ensures b == WellFormed(m)
  {
    if |m.shape| == 0 {
      return false;
    }
    var i := 0;
    while i < |m.shape|
      invariant 0 <= i <= |m.shape|
      invariant forall k :: 0 <= k < i ==> m.shape[k] > 0
    {
      if m.shape[i] <= 0 {
        return false;
      }
      i := i + 1;
    }
    if m.dimNames.Some? && |m.dimNames.value| != |m.shape| {
      return false;
    }
    if m.permutation.Some? {
      var perm := m.permutation.value;
      if |perm| != |m.shape| {
        return false;
      }
      b := SortedIsRange(perm);
      return b;
    }
    return true;
  }

  /** The permutation check of is_valid: sort a copy, then compare it with 0..N-1. */
  method SortedIsRange(perm: seq<int64>) returns (b: bool)
    ensures b == IsPermutation(perm)
  {
    var sorted := SortCopy(perm);
    b := IsRangeLoop(sorted);
    SortedCopyIsRangeIff(perm);
  }

  /** The comparison loop: the sorted copy holds 0, 1, ..., N-1. */
  method IsRangeLoop(sorted: seq<int>) returns (b: bool)
    ensures b == IsIdentity(sorted)
  {
    var j := 0;
    while j < |sorted|
      invariant 0 <= j <= |sorted|
      invariant forall k :: 0 <= k < j ==> sorted[k] == k
    {
      if sorted[j] != j {
        return false;
      }
      j := j + 1;
    }
    return true;
  }

  // ---------------------------------------------------------------------
  // compute_size

  /** metadata::compute_size: std::accumulate of the extents with *, from 1. */
  function ComputeSize(shape: seq<int>): (r: int)
    ensures shape == [] ==> r == 1
    ensures |shape| == 1 ==> r == shape[0]
    ensures 0 in shape ==> r == 0
  {
    if shape == [] then 1 else ComputeSize(shape[..|shape| - 1]) * shape[|shape| - 1]
  }

  /** The element count of two runs of extents is the product of their counts. */
  lemma {:induction false} ComputeSizeAppend(a: seq<int>, b: seq<int>)
    ensures ComputeSize(a + b) == ComputeSize(a) * ComputeSize(b)
    decreases |b|
  {
    if b == [] {
      assert a + b == a;
    } else {
      assert (a + b)[..|a + b| - 1] == a + b[..|b| - 1];
      ComputeSizeAppend(a, b[..|b| - 1]);
    }
  }

  /** Positive extents have a positive element count. */
  lemma {:induction false} ComputeSizePositive(shape: seq<int>)
    requires AllPositive(shape)
    ensures ComputeSize(shape) >= 1
    decreases |shape|
  {
    if shape != [] {
      var front := shape[..|shape| - 1];
      ComputeSizePositive(front);
      PositiveProduct(ComputeSize(front), shape[|shape| - 1]);
    }
  }

  lemma PositiveProduct(a: int, b: int)
    requires a >= 1 && b >= 1
    ensures a * b >= 1
  {
  }

  /** The element counts of a 2-D, a 3-D, a 1-D and a 4-D shape. */
  lemma ComputeSizeExamples()
    ensures ComputeSize([2, 5]) == 10
    ensures ComputeSize([100, 200, 500]) == 10000000
    ensures ComputeSize([42]) == 42
    ensures ComputeSize([2, 3, 4, 5]) == 120
  {
    assert [2, 5][..1] == [2];
    assert [100, 200, 500][..2] == [100, 200];
    assert [100, 200][..1] == [100];
    assert [42][..0] == [];
    assert [2, 3, 4, 5][..3] == [2, 3, 4];
    assert [2, 3, 4][..2] == [2, 3];
    assert [2, 3][..1] == [2];
  }

  // ---------------------------------------------------------------------
  // to_json

  function ShapeMember(shape: seq<int64>): string {
    MemberText(ShapeKey, IntArrayText(shape))
  }

  /** The dimension names, preceded by their separating comma, when present. */
  function DimNamesPart(m: Metadata): string {
    if m.dimNames.Some? then "," + MemberText(DimNamesKey, StringArrayText(m.dimNames.value)) else ""
  }

  /** The permutation, preceded by its separating comma, when present. */
  function PermutationPart(m: Metadata): string {
    if m.permutation.Some? then "," + MemberText(PermutationKey, IntArrayText(m.permutation.value)) else ""
  }

  /** The compact JSON object to_json writes: shape, then the present optional fields in order. */
  function Encode(m: Metadata): string {
    "{" + ShapeMember(m.shape) + DimNamesPart(m) + PermutationPart(m) + "}"
  }

  /** The integer loop of to_json: a comma before every element but the first. */
  method WriteInts(s: string, xs: seq<int64>) returns (r: string)
    ensures r == s + Join(IntTexts(xs))
  {
    r := s;
    var i := 0;
    while i < |xs|
      invariant 0 <= i <= |xs|
      invariant r == s + Join(IntTexts(xs[..i]))
    {
      IntTextsSnoc(xs, i);
      JoinExtend(s, IntTexts(xs[..i]), IntText(xs[i]));
      if i > 0 {
        r := r + ",";
      }
      r := r + IntText(xs[i]);
      i := i + 1;
    }
    assert xs[..i] == xs;
  }

  /** The name loop of to_json: each name between quotes, comma-separated. */
  method WriteNames(s: string, names: seq<string>) returns (r: string)
    ensures r == s + Join(QuotedTexts(names))
  {
    r := s;
    var i := 0;
    while i < |names|
      invariant 0 <= i <= |names|
      invariant r == s + Join(QuotedTexts(names[..i]))
    {
      QuotedTextsSnoc(names, i);
      JoinExtend(s, QuotedTexts(names[..i]), Quoted(names[i]));
      if i > 0 {
        r := r + ",";
      }
      r := r + ("\"" + names[i] + "\"");
      i := i + 1;
    }
    assert names[..i] == names;
  }

  /** A literal that opens a member, the array contents and the closing bracket spell the member. */
  lemma MemberLiteral(sep: string, key: string, lit: string, inner: string)
    requires lit == sep + "\"" + key + "\":["
    ensures lit + inner + "]" == sep + MemberText(key, "[" + inner + "]")
  {
  }

  /** The dim_names branch of to_json. */
  method WriteDimNames(s: string, m: Metadata) returns (r: string)
    ensures r == s + DimNamesPart(m)
  {
    r := s;
    if m.dimNames.Some? {
      var lit := ",\"dim_names\":[";
      MemberLiteral(",", DimNamesKey, lit, Join(QuotedTexts(m.dimNames.value)));
      r := r + lit;
      r := WriteNames(r, m.dimNames.value);
      r := r + "]";
    }
  }

  /** The permutation branch of to_json. */
  method WritePermutation(s: string, m: Metadata) returns (r: string)
    ensures r == s + PermutationPart(m)
  {
    r := s;
    if m.permutation.Some? {
      var lit := ",\"permutation\":[";
      MemberLiteral(",", PermutationKey, lit, Join(IntTexts(m.permutation.value)));
      r := r + lit;
      r := WriteInts(r, m.permutation.value);
      r := r + "]";
    }
  }

  /** metadata::to_json */
  method ToJson(m: Metadata) returns (s: string)
    ensures s == Encode(m)
  {
    s := "{\"shape\":[";
    MemberLiteral("{", ShapeKey, s, Join(IntTexts(m.shape)));
    s := WriteInts(s, m.shape);
    s := s + "]";
    s := WriteDimNames(s, m);
    s := WritePermutation(s, m);
    s := s + "}";
  }

  // ---------------------------------------------------------------------
  // from_json, as functions of the text and the position

  /*
   * The member loop of from_json as four mutually recursive functions: the
   * top of the loop, one member's key and colon, its value, and what follows
   * it. Each goes on with the rest of the object, so every one of them
   * yields the outcome of the whole loop: the metadata and the position
   * after the closing brace.
   */

  /** The top of the member loop: the end of the object, or one more member. */
  function ParseBody(text: string, p: nat, m: Metadata): (r: Result<(Metadata, nat), Error>)
    requires p <= |text|
    ensures r.Ok? ==> p < r.value.1 <= |text|
    decreases |text| - p, 3
  {
    var q := SkipWs(text, p);
    if q == |text| then Err(Scan(UnexpectedEnd))
    else if text[q] == '}' then Ok((m, q + 1))
    else ParseMember(text, q, m)
  }

  /** One member: a quoted key and a colon, then the value for that key. */
  function ParseMember(text: string, p: nat, m: Metadata): (r: Result<(Metadata, nat), Error>)
    requires p <= |text|
    ensures r.Ok? ==> p < r.value.1 <= |text|
    decreases |text| - p, 2
  {
    match ParseString(text, p)
    case Err(e) => Err(Scan(e))
    case Ok((key, q)) =>
      var c := SkipWs(text, q);
      if c == |text| || text[c] != ':' then Err(Scan(ExpectedColon))
      else ParseValue(text, c + 1, key, m)
  }

  /** The value read for a key, stored into its field; an unknown key fails. */
  function ParseValue(text: string, p: nat, key: string, m: Metadata): (r: Result<(Metadata, nat), Error>)
    requires 0 < p <= |text|
    ensures r.Ok? ==> p < r.value.1 <= |text|
    decreases |text| - p, 1
  {
    if key == ShapeKey then
      match ParseIntArray(text, p)
      case Err(e) => Err(Scan(e))
      case Ok((v, q)) => AfterMember(text, q, m.(shape := v))
    else if key == DimNamesKey then
      match ParseStringArray(text, p)
      case Err(e) => Err(Scan(e))
      case Ok((v, q)) => AfterMember(text, q, m.(dimNames := Some(v)))
    else if key == PermutationKey then
      match ParseIntArray(text, p)
      case Err(e) => Err(Scan(e))
      case Ok((v, q)) => AfterMember(text, q, m.(permutation := Some(v)))
    else
      Err(UnknownKey(key))
  }

  /** The bottom of the member loop: the end of the object, or a comma and the loop again. */
  function AfterMember(text: string, p: nat, m: Metadata): (r: Result<(Metadata, nat), Error>)
    requires 0 < p <= |text|
    ensures r.Ok? ==> p < r.value.1 <= |text|
    decreases |text| - p, 0
  {
    var q := SkipWs(text, p);
    if q == |text| then Err(Scan(UnexpectedEnd))
    else if text[q] == '}' then Ok((m, q + 1))
    else if text[q] != ',' then Err(Scan(ExpectedCommaOrBrace))
    else ParseBody(text, q + 1, m)
  }

  /** The object: an opening brace, then the member loop from the empty metadata. */
  function ParseObject(text: string, p: nat): (r: Result<(Metadata, nat), Error>)
    requires p <= |text|
    ensures r.Ok? ==> p < r.value.1 <= |text|
  {
    var q := SkipWs(text, p);
    if q == |text| || text[q] != '{' then Err(Scan(ExpectedOpeningBrace))
    else ParseBody(text, q + 1, Empty)
  }

  /** The checks after the loop: a shape must have been read, and the whole must be valid. */
  function Validate(m: Metadata): (r: Result<Metadata, Error>)
    ensures r.Ok? <==> WellFormed(m)
    ensures r.Ok? ==> r.value == m
    ensures m.shape == [] ==> r == Err(MissingShape)
  {
    if |m.shape| == 0 then Err(MissingShape)
    else if !WellFormed(m) then Err(InvalidMetadata)
    else Ok(m)
  }

  /**
   * metadata::from_json. Whatever follows the closing brace is never
   * looked at; a successful read is always valid metadata.
   */
  function Decode(text: string): (r: Result<Metadata, Error>)
    ensures r.Ok? ==> WellFormed(r.value)
    ensures r.Ok? ==> var q := SkipWs(text, 0); q < |text| && text[q] == '{'
  {
    match ParseObject(text, 0)
    case Err(e) => Err(e)
    case Ok((m, _)) => Validate(m)
  }

  // ---------------------------------------------------------------------
  // from_json, over the shared cursor

  /** The key, the colon and the value of one member. */
  method ReadMember(c: Cursor, m: Metadata) returns (r: Result<Metadata, Error>)
    requires c.Valid()
    modifies c
    ensures c.Valid() && (r.Ok? ==> old(c.pos) < c.pos)
    ensures r.Err? ==> ParseMember(c.text, old(c.pos), m) == Err(r.error)
    ensures r.Ok? ==> ParseMember(c.text, old(c.pos), m) == AfterMember(c.text, c.pos, r.value)
  {
    var key := c.ReadString();
    if key.Err? {
      return Err(Scan(key.error));
    }
    c.SkipWhitespace();
    if c.pos >= |c.text| || c.text[c.pos] != ':' {
      return Err(Scan(ExpectedColon));
    }
    c.pos := c.pos + 1;
    if key.value == ShapeKey {
      var v := c.ReadIntArray();
      if v.Err? {
        return Err(Scan(v.error));
      }
      r := Ok(m.(shape := v.value));
    } else if key.value == DimNamesKey {
      var v := c.ReadStringArray();
      if v.Err? {
        return Err(Scan(v.error));
      }
      r := Ok(m.(dimNames := Some(v.value)));
    } else if key.value == PermutationKey {
      var v := c.ReadIntArray();
      if v.Err? {
        return Err(Scan(v.error));
      }
      r := Ok(m.(permutation := Some(v.value)));
    } else {
      r := Err(UnknownKey(key.value));
    }
  }

  /** The member loop of from_json, after the opening brace. */
  method ReadBody(c: Cursor) returns (r: Result<Metadata, Error>)
    requires c.Valid()
    modifies c
    ensures c.Valid()
    ensures r.Err? ==> ParseBody(c.text, old(c.pos), Empty) == Err(r.error)
    ensures r.Ok? ==> ParseBody(c.text, old(c.pos), Empty) == Ok((r.value, c.pos))
  {
    var m := Empty;
    ghost var whole := ParseBody(c.text, c.pos, m);
    while true
      invariant c.Valid()
      invariant ParseBody(c.text, c.pos, m) == whole
      decreases |c.text| - c.pos
    {
      ghost var top := c.pos;
      c.SkipWhitespace();
      BodyStep(c.text, top, m);
      if c.pos >= |c.text| {
        assert whole == Err(Scan(UnexpectedEnd));
        return Err(Scan(UnexpectedEnd));
      }
      if c.text[c.pos] == '}' {
        c.pos := c.pos + 1;
        assert whole == Ok((m, c.pos));
        return Ok(m);
      }
      ghost var member := ParseMember(c.text, c.pos, m);
      assert whole == member;
      var next := ReadMember(c, m);
      if next.Err? {
        assert whole == Err(next.error);
        return Err(next.error);
      }
      m := next.value;
      ghost var bottom := c.pos;
      assert whole == AfterMember(c.text, bottom, m);
      c.SkipWhitespace();
      AfterMemberStep(c.text, bottom, m);
      if c.pos >= |c.text| {
        assert whole == Err(Scan(UnexpectedEnd));
        return Err(Scan(UnexpectedEnd));
      }
      if c.text[c.pos] == '}' {
        c.pos := c.pos + 1;
        assert whole == Ok((m, c.pos));
        return Ok(m);
      }
      if c.text[c.pos] != ',' {
        assert whole == Err(Scan(ExpectedCommaOrBrace));
        return Err(Scan(ExpectedCommaOrBrace));
      }
      c.pos := c.pos + 1;
      assert whole == ParseBody(c.text, c.pos, m);
    }
  }

  /** One turn of the member loop from its top: the end, `}`, or a member. */
  lemma {:induction false} BodyStep(text: string, p: nat, m: Metadata)
    requires p <= |text|
    ensures var q := SkipWs(text, p);
      && (q == |text| ==> ParseBody(text, p, m) == Err(Scan(UnexpectedEnd)))
      && (q < |text| && text[q] == '}' ==> ParseBody(text, p, m) == Ok((m, q + 1)))
      && (q < |text| && text[q] != '}' ==> ParseBody(text, p, m) == ParseMember(text, q, m))
  {
  }

  /** The bottom of the member loop: the end, `}`, a comma and the next turn, or an error. */
  lemma {:induction false} AfterMemberStep(text: string, p: nat, m: Metadata)
    requires 0 < p <= |text|
    ensures var q := SkipWs(text, p);
      && (q == |text| ==> AfterMember(text, p, m) == Err(Scan(UnexpectedEnd)))
      && (q < |text| && text[q] == '}' ==> AfterMember(text, p, m) == Ok((m, q + 1)))
      && (q < |text| && text[q] != '}' && text[q] != ',' ==> AfterMember(text, p, m) == Err(Scan(ExpectedCommaOrBrace)))
      && (q < |text| && text[q] == ',' ==> AfterMember(text, p, m) == ParseBody(text, q + 1, m))
  {
  }

  /** metadata::from_json */
  method FromJson(json: string) returns (r: Result<Metadata, Error>)
    ensures r == Decode(json)
  {
    var c := new Cursor(json);
    c.SkipWhitespace();
    if c.pos >= |json| || json[c.pos] != '{' {
      return Err(Scan(ExpectedOpeningBrace));
    }
    c.pos := c.pos + 1;
    var body := ReadBody(c);
    if body.Err? {
      return Err(body.error);
    }
    var m := body.value;
    if |m.shape| == 0 {
      return Err(MissingShape);
    }
    var valid := IsValid(m);
    if !valid {
      return Err(InvalidMetadata);
    }
    r := Ok(m);
  }

  // ---------------------------------------------------------------------
  // Reading back what to_json writes

  /** Dimension names the reader can return unchanged: none contains a double quote. */
  predicate PlainNames(m: Metadata) {
    m.dimNames.Some? ==> NoQuotes(m.dimNames.value)
  }

  /** A quoted key without quotes in it and a colon lead straight to the value for that key. */
  lemma {:induction false} ParseMemberText(text: string, p: nat, key: string, m: Metadata)
    requires Spells(text, p, Quoted(key) + ":") && '"' !in key
    ensures p < |text| && text[p] == '"'
    ensures ParseMember(text, p, m) == ParseValue(text, p + |key| + 3, key, m)
  {
    SpellsSplit(text, p, Quoted(key), ":");
    SpellsChar(text, p, Quoted(key), 0);
    ParseStringText(text, p, key);
    SpellsChar(text, p + |Quoted(key)|, ":", 0);
  }

  /** An integer array read as the value of the shape or the permutation key. */
  lemma {:induction false} ValueIntArray(text: string, p: nat, key: string, m: Metadata, xs: seq<int64>, q: nat)
    requires 0 < p <= |text| && ParseIntArray(text, p) == Ok((xs, q))
    ensures key == ShapeKey ==> ParseValue(text, p, key, m) == AfterMember(text, q, m.(shape := xs))
    ensures key == PermutationKey ==> ParseValue(text, p, key, m) == AfterMember(text, q, m.(permutation := Some(xs)))
  {
  }

  /** A name array read as the value of the dim_names key. */
  lemma {:induction false} ValueStringArray(text: string, p: nat, m: Metadata, names: seq<string>, q: nat)
    requires 0 < p <= |text| && ParseStringArray(text, p) == Ok((names, q))
    ensures ParseValue(text, p, DimNamesKey, m) == AfterMember(text, q, m.(dimNames := Some(names)))
  {
  }

  /** A member whose value is an integer array: the key, then the array, ending after the member. */
  lemma {:induction false} IntMemberAt(text: string, p: nat, key: string, xs: seq<int64>, acc: Metadata)
    requires Spells(text, p, MemberText(key, IntArrayText(xs))) && '"' !in key
    ensures p < |text| && text[p] == '"' && 0 < p + |key| + 3 <= |text|
    ensures ParseMember(text, p, acc) == ParseValue(text, p + |key| + 3, key, acc)
    ensures ParseIntArray(text, p + |key| + 3) == Ok((xs, p + |MemberText(key, IntArrayText(xs))|))
  {
    MemberSplit(text, p, key, IntArrayText(xs));
    ParseMemberText(text, p, key, acc);
    ParseIntArrayText(text, p + |key| + 3, xs);
  }

  /** A spelled member spells its quoted key and colon, then its value right after them. */
  lemma {:induction false} MemberSplit(text: string, p: nat, key: string, value: string)
    requires Spells(text, p, MemberText(key, value))
    ensures Spells(text, p, Quoted(key) + ":") && Spells(text, p + |key| + 3, value)
    ensures |MemberText(key, value)| == |key| + 3 + |value|
  {
    SpellsSplit(text, p, Quoted(key) + ":", value);
  }

  /** A shape member is read into the shape, and the loop goes on after it. */
  lemma {:induction false} ShapeMemberAt(text: string, p: nat, xs: seq<int64>, acc: Metadata)
    requires Spells(text, p, ShapeMember(xs))
    ensures p < |text| && text[p] == '"'
    ensures ParseMember(text, p, acc)
         == AfterMember(text, p + |ShapeMember(xs)|, acc.(shape := xs))
  {
    var q := p + |MemberText(ShapeKey, IntArrayText(xs))|;
    IntMemberAt(text, p, ShapeKey, xs, acc);
    ValueIntArray(text, p + |ShapeKey| + 3, ShapeKey, acc, xs, q);
  }

  /** A dim_names member is read into the names, and the loop goes on after it. */
  lemma {:induction false} DimNamesMemberAt(text: string, p: nat, names: seq<string>, acc: Metadata)
    requires Spells(text, p, MemberText(DimNamesKey, StringArrayText(names))) && NoQuotes(names)
    ensures p < |text| && text[p] == '"'
    ensures ParseMember(text, p, acc)
         == AfterMember(text, p + |MemberText(DimNamesKey, StringArrayText(names))|, acc.(dimNames := Some(names)))
  {
    SpellsSplit(text, p, Quoted(DimNamesKey) + ":", StringArrayText(names));
    ParseMemberText(text, p, DimNamesKey, acc);
    ParseStringArrayText(text, p + |DimNamesKey| + 3, names);
    ValueStringArray(text, p + |DimNamesKey| + 3, acc, names, p + |MemberText(DimNamesKey, StringArrayText(names))|);
  }

  /** A permutation member is read into the permutation, and the loop goes on after it. */
  lemma {:induction false} PermutationMemberAt(text: string, p: nat, perm: seq<int64>, acc: Metadata)
    requires Spells(text, p, MemberText(PermutationKey, IntArrayText(perm)))
    ensures p < |text| && text[p] == '"'
    ensures ParseMember(text, p, acc)
         == AfterMember(text, p + |MemberText(PermutationKey, IntArrayText(perm))|, acc.(permutation := Some(perm)))
  {
    IntMemberAt(text, p, PermutationKey, perm, acc);
    ValueIntArray(text, p + |PermutationKey| + 3, PermutationKey, acc, perm,
                  p + |MemberText(PermutationKey, IntArrayText(perm))|);
  }

  /** A closing brace spelled after a member ends the object. */
  lemma {:induction false} CloseAt(text: string, e: nat, m: Metadata)
    requires 0 < e && Spells(text, e, "}")
    ensures AfterMember(text, e, m) == Ok((m, e + 1))
  {
    SpellsChar(text, e, "}", 0);
  }

  /** A comma right after a member sends the loop round again. */
  lemma {:induction false} AfterComma(text: string, e: nat, m: Metadata)
    requires 0 < e < |text| && text[e] == ','
    ensures AfterMember(text, e, m) == ParseBody(text, e + 1, m)
  {
  }

  /** A comma and the quote of a key after a member: the next member is read. */
  lemma {:induction false} CommaMember(text: string, e: nat, m: Metadata)
    requires 0 < e && e + 1 < |text| && text[e] == ',' && text[e + 1] == '"'
    ensures AfterMember(text, e, m) == ParseMember(text, e + 1, m)
  {
    AfterComma(text, e, m);
  }

  /** A comma and a member that is read into m2: the loop goes on after that member with m2. */
  lemma {:induction false} CommaPartAt(text: string, e: nat, member: string, acc: Metadata, m2: Metadata)
    requires 0 < e && Spells(text, e, ",") && e + 1 < |text| && text[e + 1] == '"'
    requires e + 1 + |member| <= |text|
    requires ParseMember(text, e + 1, acc) == AfterMember(text, e + 1 + |member|, m2)
    ensures AfterMember(text, e, acc) == AfterMember(text, e + 1 + |member|, m2)
  {
    SpellsChar(text, e, ",", 0);
    CommaMember(text, e, acc);
  }

  /** A comma and a shape member after a member are read into the shape. */
  lemma {:induction false} ShapePartAt(text: string, e: nat, xs: seq<int64>, acc: Metadata)
    requires 0 < e && Spells(text, e, "," + ShapeMember(xs))
    ensures AfterMember(text, e, acc)
         == AfterMember(text, e + 1 + |ShapeMember(xs)|, acc.(shape := xs))
  {
    var member := ShapeMember(xs);
    SpellsSplit(text, e, ",", member);
    SpellsChar(text, e, ",", 0);
    ShapeMemberAt(text, e + 1, xs, acc);
    CommaMember(text, e, acc);
  }

  /** A comma and a dim_names member after a member are read into the names. */
  lemma {:induction false} DimNamesPartAt(text: string, e: nat, names: seq<string>, acc: Metadata)
    requires 0 < e && Spells(text, e, "," + MemberText(DimNamesKey, StringArrayText(names))) && NoQuotes(names)
    ensures AfterMember(text, e, acc)
         == AfterMember(text, e + 1 + |MemberText(DimNamesKey, StringArrayText(names))|, acc.(dimNames := Some(names)))
  {
    var member := MemberText(DimNamesKey, StringArrayText(names));
    SpellsSplit(text, e, ",", member);
    SpellsChar(text, e, ",", 0);
    DimNamesMemberAt(text, e + 1, names, acc);
    CommaMember(text, e, acc);
  }

  /** A comma and a permutation member after a member are read into the permutation. */
  lemma {:induction false} PermutationPartAt(text: string, e: nat, perm: seq<int64>, acc: Metadata)
    requires 0 < e && Spells(text, e, "," + MemberText(PermutationKey, IntArrayText(perm)))
    ensures AfterMember(text, e, acc)
         == AfterMember(text, e + 1 + |MemberText(PermutationKey, IntArrayText(perm))|, acc.(permutation := Some(perm)))
  {
    var member := MemberText(PermutationKey, IntArrayText(perm));
    SpellsSplit(text, e, ",", member);
    PermutationMemberAt(text, e + 1, perm, acc);
    CommaPartAt(text, e, member, acc, acc.(permutation := Some(perm)));
  }

  /** An opening brace and the quote of a key: the first member is read. */
  lemma {:induction false} ObjectOpen(text: string, p: nat)
    requires p + 1 < |text| && text[p] == '{' && text[p + 1] == '"'
    ensures ParseObject(text, p) == ParseMember(text, p + 1, Empty)
  {
  }

  /** The opening brace and the shape member: the loop goes on after the shape. */
  lemma {:induction false} OpenAt(text: string, p: nat, xs: seq<int64>)
    requires Spells(text, p, "{" + ShapeMember(xs))
    ensures ParseObject(text, p) == AfterMember(text, p + |"{" + ShapeMember(xs)|, Empty.(shape := xs))
  {
    var member := ShapeMember(xs);
    SpellsSplit(text, p, "{", member);
    SpellsChar(text, p, "{", 0);
    ShapeMemberAt(text, p + 1, xs, Empty);
    ObjectOpen(text, p);
  }

  /** From the end of the previous member: the permutation if written, then the closing brace. */
  lemma {:induction false} PermutationTail(text: string, e: nat, m: Metadata, acc: Metadata)
    requires 0 < e && Spells(text, e, PermutationPart(m) + "}")
    requires acc.permutation.None?
    ensures AfterMember(text, e, acc)
         == Ok((acc.(permutation := m.permutation), e + |PermutationPart(m)| + 1))
  {
    var part := PermutationPart(m);
    SpellsSplit(text, e, part, "}");
    if m.permutation.None? {
      CloseAt(text, e, acc);
    } else {
      PermutationPartAt(text, e, m.permutation.value, acc);
      CloseAt(text, e + |part|, acc.(permutation := m.permutation));
    }
  }

  /** From the end of the shape member: the names if written, the permutation if written, the brace. */
  lemma {:induction false} DimNamesTail(text: string, e: nat, m: Metadata, acc: Metadata)
    requires 0 < e && Spells(text, e, DimNamesPart(m) + (PermutationPart(m) + "}"))
    requires acc.dimNames.None? && acc.permutation.None? && PlainNames(m)
    ensures AfterMember(text, e, acc)
         == Ok((acc.(dimNames := m.dimNames, permutation := m.permutation),
                e + |DimNamesPart(m)| + |PermutationPart(m)| + 1))
  {
    var part := DimNamesPart(m);
    SpellsSplit(text, e, part, PermutationPart(m) + "}");
    if m.dimNames.None? {
      PermutationTail(text, e, m, acc);
    } else {
      DimNamesPartAt(text, e, m.dimNames.value, acc);
      PermutationTail(text, e + |part|, m, acc.(dimNames := m.dimNames));
    }
  }

  /** The written object: the brace and the shape member, then the rest. */
  lemma EncodeParts(m: Metadata)
    ensures Encode(m) == ("{" + ShapeMember(m.shape)) + (DimNamesPart(m) + (PermutationPart(m) + "}"))
  {
  }

  /** The parts of the written object, wherever they stand in a text, read back as the metadata. */
  lemma {:induction false} ParseObjectParts(text: string, p: nat, m: Metadata)
    requires Spells(text, p, ("{" + ShapeMember(m.shape)) + (DimNamesPart(m) + (PermutationPart(m) + "}")))
    requires PlainNames(m)
    ensures ParseObject(text, p)
         == Ok((m, p + |"{" + ShapeMember(m.shape)| + |DimNamesPart(m)| + |PermutationPart(m)| + 1))
  {
    var head := "{" + ShapeMember(m.shape);
    SpellsSplit(text, p, head, DimNamesPart(m) + (PermutationPart(m) + "}"));
    OpenAt(text, p, m.shape);
    DimNamesTail(text, p + |head|, m, Empty.(shape := m.shape));
    assert Empty.(shape := m.shape).(dimNames := m.dimNames, permutation := m.permutation) == m;
  }

  /** The object to_json writes, wherever it stands in a text, reads back as the same metadata. */
  lemma {:induction false} ParseObjectText(text: string, p: nat, m: Metadata)
    requires Spells(text, p, Encode(m)) && PlainNames(m)
    ensures ParseObject(text, p) == Ok((m, p + |Encode(m)|))
  {
    EncodeParts(m);
    ParseObjectParts(text, p, m);
  }

  /**
   * Reading what to_json wrote, followed by anything at all, gives the
   * outcome of the final checks on the original metadata: the metadata
   * itself when valid, a missing shape when its shape is empty.
   */
  lemma {:induction false} DecodeEncoded(m: Metadata, rest: string)
    requires PlainNames(m)
    ensures Decode(Encode(m) + rest) == Validate(m)
  {
    SpellsPrefix(Encode(m), rest);
    ParseObjectText(Encode(m) + rest, 0, m);
  }

  /** from_json(to_json(m)) == m for valid metadata whose names hold no double quote. */
  lemma {:induction false} RoundTrip(m: Metadata)
    requires WellFormed(m) && PlainNames(m)
    ensures Decode(Encode(m)) == Ok(m)
  {
    DecodeEncoded(m, "");
    assert Encode(m) + "" == Encode(m);
  }

  /** Text after the closing brace is never examined. */
  lemma {:induction false} TrailingTextIgnored(m: Metadata, rest: string)
    requires PlainNames(m)
    ensures Decode(Encode(m) + rest) == Decode(Encode(m))
  {
    DecodeEncoded(m, rest);
    DecodeEncoded(m, "");
    assert Encode(m) + "" == Encode(m);
  }

  /** An empty shape array is reported as a missing shape, whatever else is written. */
  lemma {:induction false} EmptyShapeIsMissing(m: Metadata)
    requires m.shape == [] && PlainNames(m)
    ensures Decode(Encode(m)) == Err(MissingShape)
  {
    DecodeEncoded(m, "");
    assert Encode(m) + "" == Encode(m);
  }

  /** An object without members is accepted by the loop and then lacks its shape. */
  lemma EmptyObjectIsMissingShape()
    ensures Decode("{}") == Err(MissingShape)
  {
    assert SkipWs("{}", 0) == 0;
    assert SkipWs("{}", 1) == 1;
  }

  /** A second "shape" member overwrites the first. */
  lemma {:induction false} RepeatedKeyOverwrites(a: seq<int64>, b: seq<int64>)
    ensures var first := "{" + ShapeMember(a);
            var second := "," + ShapeMember(b);
            ParseObject(first + second + "}", 0) == Ok((Metadata(b, None, None), |first| + |second| + 1))
  {
    var first := "{" + ShapeMember(a);
    var second := "," + ShapeMember(b);
    var text := first + second + "}";
    SpellsPrefix(first + second, "}");
    SpellsSplit(text, 0, first, second);
    OpenAt(text, 0, a);
    ShapePartAt(text, |first|, b, Metadata(a, None, None));
    SpellsTail(first + second, "}");
    CloseAt(text, |first| + |second|, Metadata(b, None, None));
  }

  /** A comma before the closing brace is accepted: the loop top sees the brace. */
  lemma {:induction false} TrailingCommaAccepted(xs: seq<int64>)
    ensures var first := "{" + ShapeMember(xs);
            ParseObject(first + ",}", 0) == Ok((Metadata(xs, None, None), |first| + 2))
  {
    var first := "{" + ShapeMember(xs);
    var text := first + ",}";
    SpellsPrefix(first, ",}");
    OpenAt(text, 0, xs);
    var e := |first|;
    assert text[e] == ',' && text[e + 1] == '}';
    AfterComma(text, e, Metadata(xs, None, None));
  }

  /** A key other than shape, dim_names and permutation fails once its colon is read. */
  lemma {:induction false} UnknownKeyFails(text: string, key: string)
    requires Spells(text, 0, "{" + Quoted(key) + ":") && '"' !in key
    requires key != ShapeKey && key != DimNamesKey && key != PermutationKey
    ensures Decode(text) == Err(UnknownKey(key))
  {
    ObjectKeyAt(text, key);
  }

  /** A first key not followed by a colon, after optional whitespace, fails. */
  lemma {:induction false} MissingColonFails(text: string, key: string)
    requires Spells(text, 0, "{" + Quoted(key)) && '"' !in key
    requires var c := SkipWs(text, 1 + |Quoted(key)|); c == |text| || text[c] != ':'
    ensures Decode(text) == Err(Scan(ExpectedColon))
  {
    SpellsSplit(text, 0, "{", Quoted(key));
    SpellsChar(text, 0, "{", 0);
    SpellsChar(text, 1, Quoted(key), 0);
    ParseStringText(text, 1, key);
    ObjectOpen(text, 0);
  }

  /** A first key whose closing quote never comes fails. */
  lemma {:induction false} UnterminatedKeyFails(s: string)
    requires '"' !in s
    ensures Decode("{\"" + s) == Err(Scan(ExpectedClosingQuote))
  {
    var text := "{\"" + s;
    assert text[0] == '{' && text[1] == '"';
    QuoteEndAtEnd(text, 2);
    ObjectOpen(text, 0);
    assert SkipWs(text, 1) == 1;
  }

  /** No double quote from p on: the quote search runs to the end. */
  lemma {:induction false} QuoteEndAtEnd(text: string, p: nat)
    requires p <= |text| && forall i :: p <= i < |text| ==> text[i] != '"'
    ensures QuoteEnd(text, p) == |text|
    decreases |text| - p
  {
    if p < |text| {
      QuoteEndAtEnd(text, p + 1);
    }
  }

  /** The opening brace, a quoted key and its colon: the object is read on from the key's value. */
  lemma {:induction false} ObjectKeyAt(text: string, key: string)
    requires Spells(text, 0, "{" + Quoted(key) + ":") && '"' !in key
    ensures ParseObject(text, 0) == ParseValue(text, |key| + 4, key, Empty)
  {
    assert "{" + Quoted(key) + ":" == "{" + (Quoted(key) + ":");
    SpellsSplit(text, 0, "{", Quoted(key) + ":");
    SpellsChar(text, 0, "{", 0);
    ParseMemberText(text, 1, key, Empty);
    ObjectOpen(text, 0);
  }

  /** The value of a known key that does not start with a bracket, after optional whitespace, fails. */
  lemma {:induction false} ValueNotArrayFails(text: string, key: string)
    requires key == ShapeKey || key == DimNamesKey || key == PermutationKey
    requires Spells(text, 0, "{" + Quoted(key) + ":")
    requires var v := SkipWs(text, |key| + 4); v == |text| || text[v] != '['
    ensures Decode(text) == Err(Scan(ExpectedOpeningBracket))
  {
    ObjectKeyAt(text, key);
    var p := |key| + 4;
    if key == DimNamesKey {
      assert ParseStringArray(text, p) == Err(ExpectedOpeningBracket);
    } else {
      assert ParseIntArray(text, p) == Err(ExpectedOpeningBracket);
    }
  }

  /** An integer array whose first element is followed by something other than `,` and `]` fails. */
  lemma {:induction false} ArrayCommaMissing(text: string, p: nat, v: int64)
    requires Spells(text, p, "[" + IntText(v))
    requires var e := p + 1 + |IntText(v)|;
      e < |text| && !IsDigit(text[e]) && !IsSpace(text[e]) && text[e] != ',' && text[e] != ']'
    ensures ParseIntArray(text, p) == Err(ExpectedCommaOrBracket)
  {
    SpellsSplit(text, p, "[", IntText(v));
    SpellsChar(text, p, "[", 0);
    SpellsChar(text, p + 1, IntText(v), 0);
    IntTextHead(v);
    ParseIntText(text, p + 1, v);
    var e := p + 1 + |IntText(v)|;
    ParseIntElemsAfter(text, p + 1, [], v, e, e);
  }

  /** Two elements of a shape array without a comma between them fail. */
  lemma {:induction false} MissingArrayCommaFails(text: string, v: int64)
    requires Spells(text, 0, "{" + Quoted(ShapeKey) + ":" + "[" + IntText(v))
    requires var e := |ShapeKey| + 5 + |IntText(v)|;
      e < |text| && !IsDigit(text[e]) && !IsSpace(text[e]) && text[e] != ',' && text[e] != ']'
    ensures Decode(text) == Err(Scan(ExpectedCommaOrBracket))
  {
    var head := "{" + Quoted(ShapeKey) + ":";
    assert head + "[" + IntText(v) == head + ("[" + IntText(v));
    SpellsSplit(text, 0, head, "[" + IntText(v));
    ObjectKeyAt(text, ShapeKey);
    ArrayCommaMissing(text, |head|, v);
  }

  /** A member followed by neither a comma nor a closing brace fails; so does a text that stops after it. */
  lemma {:induction false} MissingCommaOrBraceFails(xs: seq<int64>, c: char, rest: string)
    requires !IsSpace(c) && c != ',' && c != '}'
    ensures Decode("{" + ShapeMember(xs) + [c] + rest) == Err(Scan(ExpectedCommaOrBrace))
    ensures Decode("{" + ShapeMember(xs)) == Err(Scan(UnexpectedEnd))
  {
    var first := "{" + ShapeMember(xs);
    var text := first + [c] + rest;
    assert text == first + ([c] + rest);
    SpellsPrefix(first, [c] + rest);
    OpenAt(text, 0, xs);
    assert text[|first|] == c;
    SpellsPrefix(first, "");
    assert first + "" == first;
    OpenAt(first, 0, xs);
  }

  /** Whitespace before the object is skipped: what to_json writes, indented, still reads back. */
  lemma {:induction false} LeadingWhitespaceSkipped(ws: string, m: Metadata)
    requires forall i :: 0 <= i < |ws| ==> IsSpace(ws[i])
    requires PlainNames(m)
    ensures Decode(ws + Encode(m)) == Decode(Encode(m))
  {
    var text := ws + Encode(m);
    SkipSpaces(text, 0, |ws|);
    SpellsTail(ws, Encode(m));
    EncodeParts(m);
    assert Encode(m)[0] == '{';
    assert text[|ws|] == '{';
    assert SkipWs(text, |ws|) == |ws|;
    ParseObjectText(text, |ws|, m);
    DecodeEncoded(m, "");
    assert Encode(m) + "" == Encode(m);
  }

  /** A run of whitespace from p to q is skipped up to q. */
  lemma {:induction false} SkipSpaces(text: string, p: nat, q: nat)
    requires p <= q <= |text| && forall i :: p <= i < q ==> IsSpace(text[i])
    ensures SkipWs(text, p) == SkipWs(text, q)
    decreases q - p
  {
    if p < q {
      SkipSpaces(text, p + 1, q);
    }
  }

  /** A shape member with each of the six C-locale space characters between its tokens. */
  const SpacedShape: string := " {\t\"shape\"\n:\r[ 2\U{B}]\U{C}}"

  /** Whitespace between every pair of tokens is accepted. */
  lemma WhitespaceBetweenTokens()
    ensures Decode(SpacedShape) == Ok(Metadata([2], None, None))
  {
    SpacedMember();
    SpacedOpening(SpacedShape);
    DecodeParsed(SpacedShape, Metadata([2], None, None), 20);
  }

  /** Leading whitespace, the opening brace and more whitespace lead to the spaced member. */
  lemma SpacedOpening(text: string)
    requires text == SpacedShape
    ensures ParseObject(text, 0) == ParseMember(text, 3, Empty)
  {
    assert SkipWs(text, 0) == 1 && text[1] == '{';
    assert SkipWs(text, 2) == 3 && text[3] == '"';
    BodyAtMember(text, 2, 3, Empty);
  }

  /** Whitespace, then anything but a closing brace: the body goes on with a member. */
  lemma {:induction false} BodyAtMember(text: string, p: nat, q: nat, m: Metadata)
    requires p <= |text| && q == SkipWs(text, p) && q < |text| && text[q] != '}'
    ensures ParseBody(text, p, m) == ParseMember(text, q, m)
  {
  }

  /** An object read to valid parameters decodes to them. */
  lemma {:induction false} DecodeParsed(text: string, m: Metadata, e: nat)
    requires ParseObject(text, 0) == Ok((m, e)) && WellFormed(m)
    ensures Decode(text) == Ok(m)
  {
  }

  /** The spaced member: key, colon, value and closing brace. */
  lemma SpacedMember()
    ensures ParseMember(SpacedShape, 3, Empty) == Ok((Metadata([2], None, None), 20))
  {
    SpacedKey();
    assert SkipWs(SpacedShape, 10) == 11;
    SpacedArray();
    SpacedClose();
  }

  /** The spaced key reads back as "shape". */
  lemma SpacedKey()
    ensures ParseString(SpacedShape, 3) == Ok(("shape", 10))
  {
    var text := SpacedShape;
    assert QuoteEnd(text, 4) == 9;
    assert SkipWs(text, 3) == 3;
    assert text[4..9] == "shape";
  }

  /** The spaced array reads back as [2]. */
  lemma SpacedArray()
    ensures ParseIntArray(SpacedShape, 12) == Ok(([2], 18))
  {
    var text := SpacedShape;
    assert SkipWs(text, 12) == 13;
    assert SkipWs(text, 14) == 15;
    assert text[15] == '2' && SignLength(text, 15) == 0;
    assert DigitsEnd(text, 15) == 16;
    assert JsonScanner.DigitsValue(text, 15, 16) == 2;
    assert Stoll(text, 15, 16) == Ok(2);
    assert ParseInt(text, 14) == Ok((2, 16));
    assert SkipWs(text, 16) == 17;
    assert text[17] == ']' && [] + [2] == [2];
    assert CloseList(text, 17, [2]) == Ok(([2], 18));
    assert ParseIntElems(text, 14, []) == Ok(([2], 18));
  }

  /** After the spaced array, whitespace and the closing brace end the object. */
  lemma SpacedClose()
    ensures AfterMember(SpacedShape, 18, Empty.(shape := [2])) == Ok((Metadata([2], None, None), 20))
  {
    assert SkipWs(SpacedShape, 18) == 19;
  }

  // ---------------------------------------------------------------------
  // init and extract_metadata

  /**
   * fixed_shape_tensor_extension::init: the field's pairs (none when the
   * field has no metadata) with the extension tags merged in.
   */
  function Init(existing: Option<seq<MetadataPair>>, m: Metadata): (r: seq<MetadataPair>)
    requires WellFormed(m)
    ensures HasNameTag(r, ExtensionName)
    ensures existing.Some? && HasNameTag(existing.value, ExtensionName) ==> r == existing.value
    ensures existing.None? ==> r == [(NameKey, ExtensionName), (MetadataKey, Encode(m))]
    ensures existing.Some? && !HasNameTag(existing.value, ExtensionName)
            ==> r == existing.value + [(NameKey, ExtensionName), (MetadataKey, Encode(m))]
  {
    MergeTags(existing.GetOr([]), ExtensionName, Encode(m))
  }

  /** Installing the tags a second time, with any valid parameters, changes nothing. */
  lemma InitIdempotent(existing: Option<seq<MetadataPair>>, m: Metadata, m2: Metadata)
    requires WellFormed(m) && WellFormed(m2)
    ensures Init(Some(Init(existing, m)), m2) == Init(existing, m)
  {
    MergeTagsIdempotent(existing.GetOr([]), ExtensionName, Encode(m), Encode(m2));
  }

  /** init, imperatively: copy the pairs, search for the name tag, append the two tags when absent. */
  method InitTags(existing: Option<seq<MetadataPair>>, m: Metadata) returns (kv: seq<MetadataPair>)
    requires WellFormed(m)
    ensures kv == Init(existing, m)
  {
    kv := if existing.Some? then existing.value else [];
    var tagged := FindNameTag(kv, ExtensionName);
    if !tagged {
      var json := ToJson(m);
      kv := kv + [(NameKey, ExtensionName), (MetadataKey, json)];
    }
  }

  /**
   * fixed_shape_tensor_extension::extract_metadata: no metadata at all, or
   * no non-empty value under the metadata key, fails; otherwise the first
   * such value is read with from_json.
   */
  function ExtractMetadata(kv: Option<seq<MetadataPair>>): (r: Result<Metadata, Error>)
    ensures kv.None? ==> r == Err(MissingMetadata)
    ensures kv.Some? && FirstValue(kv.value, MetadataKey) in {None, Some("")} ==> r == Err(MissingMetadataValue)
    ensures kv.Some? && FirstValue(kv.value, MetadataKey).Some? && FirstValue(kv.value, MetadataKey).value != ""
            ==> r == Decode(FirstValue(kv.value, MetadataKey).value)
    ensures r.Ok? ==> WellFormed(r.value)
  {
    match kv
    case None => Err(MissingMetadata)
    case Some(pairs) =>
      var json := FirstValue(pairs, MetadataKey).GetOr("");
      if json == "" then Err(MissingMetadataValue) else Decode(json)
  }

  /** extract_metadata, imperatively: the search loop with its break, then from_json. */
  method Extract(kv: Option<seq<MetadataPair>>) returns (r: Result<Metadata, Error>)
    ensures r == ExtractMetadata(kv)
  {
    if kv.None? {
      return Err(MissingMetadata);
    }
    var found := FindFirstValue(kv.value, MetadataKey);
    var json := if found.Some? then found.value else "";
    if json == "" {
      return Err(MissingMetadataValue);
    }
    r := FromJson(json);
  }

  /**
   * What init installs on pairs that carry neither tag, extract_metadata
   * reads back: the same metadata.
   */
  lemma {:induction false} ExtractAfterInit(existing: Option<seq<MetadataPair>>, m: Metadata)
    requires WellFormed(m) && PlainNames(m)
    requires existing.Some? ==> !HasNameTag(existing.value, ExtensionName) && !HasKey(existing.value, MetadataKey)
    ensures ExtractMetadata(Some(Init(existing, m))) == Ok(m)
  {
    var pairs := existing.GetOr([]);
    assert !HasNameTag(pairs, ExtensionName) && !HasKey(pairs, MetadataKey);
    FirstValueAfterMerge(pairs, ExtensionName, Encode(m));
    assert Encode(m)[0] == '{';
    RoundTrip(m);
  }
}
