/**
 * The parameters of the Arrow variable-shape tensor extension type
 * (src/variable_shape_tensor.cpp): three optional fields, the dimension
 * count they imply, the validator, the JSON writer, the checks that follow
 * the JSON reading, and the installation and retrieval of the serialized
 * parameters in a field's key/value metadata.
 */
module VariableShapeTensor {
  import opened Wrappers
  import opened Permutations
  import opened JsonText
  import opened ExtensionTags

  /** variable_shape_tensor_extension::EXTENSION_NAME */
  const ExtensionName: string := "arrow.variable_shape_tensor"

  const DimNamesKey: string := "dim_names"
  const PermutationKey: string := "permutation"
  const UniformShapeKey: string := "uniform_shape"

  /** variable_shape_tensor_extension::metadata; a null uniform_shape entry is a free dimension. */
  datatype Metadata = Metadata(
    dimNames: Option<seq<string>>,
    permutation: Option<seq<int64>>,
    uniformShape: Option<seq<Option<int32>>>)

  /** metadata{}: every field absent. */
  const Default: Metadata := Metadata(None, None, None)

  /** Why from_json fails: the JSON library rejects the text, or the fields are not valid. */
  datatype Error = JsonParsing | InvalidMetadata

  predicate AllAbsent(m: Metadata) {
    m.dimNames.None? && m.permutation.None? && m.uniformShape.None?
  }

  // ---------------------------------------------------------------------
  // get_ndim

  /** metadata::get_ndim: the length of the first present field, in the order dim_names, permutation, uniform_shape. */
  function GetNdim(m: Metadata): (r: Option<nat>)
    ensures r.None? <==> AllAbsent(m)
    ensures m.dimNames.Some? ==> r == Some(|m.dimNames.value|)
    ensures m.dimNames.None? && m.permutation.Some? ==> r == Some(|m.permutation.value|)
    ensures m.dimNames.None? && m.permutation.None? && m.uniformShape.Some? ==> r == Some(|m.uniformShape.value|)
  {
    if m.dimNames.Some? then Some(|m.dimNames.value|)
    else if m.permutation.Some? then Some(|m.permutation.value|)
    else if m.uniformShape.Some? then Some(|m.uniformShape.value|)
    else None
  }

  // ---------------------------------------------------------------------
  // is_valid

  /** Every pair of present fields has the same length. */
  predicate SameLengths(m: Metadata) {
    && (m.dimNames.Some? && m.permutation.Some? ==> |m.dimNames.value| == |m.permutation.value|)
    && (m.dimNames.Some? && m.uniformShape.Some? ==> |m.dimNames.value| == |m.uniformShape.value|)
    && (m.permutation.Some? && m.uniformShape.Some? ==> |m.permutation.value| == |m.uniformShape.value|)
  }

  /** Every dimension the uniform shape fixes is positive. */
  predicate FixedDimsPositive(dims: seq<Option<int32>>) {
    forall i :: 0 <= i < |dims| && dims[i].Some? ==> dims[i].value > 0
  }

  /**
   * What the Arrow format demands of the parameters: the present fields
   * agree on the dimension count, a present permutation is a non-empty
   * bijection of [0, N), and the fixed extents are positive.
   */
  predicate WellFormed(m: Metadata) {
    && SameLengths(m)
    && (m.permutation.Some? ==> |m.permutation.value| > 0 && IsPermutation(m.permutation.value))
    && (m.uniformShape.Some? ==> FixedDimsPositive(m.uniformShape.value))
  }

  /** Metadata without any field is valid. */
  lemma DefaultWellFormed()
    ensures WellFormed(Default) && GetNdim(Default) == None
  {
  }

  /** For valid metadata the count get_ndim reports is the length of every present field. */
  lemma {:induction false} NdimOfValid(m: Metadata)
    requires WellFormed(m)
    ensures m.dimNames.Some? ==> GetNdim(m) == Some(|m.dimNames.value|)
    ensures m.permutation.Some? ==> GetNdim(m) == Some(|m.permutation.value|)
    ensures m.uniformShape.Some? ==> GetNdim(m) == Some(|m.uniformShape.value|)
  {
  }

  /** metadata::is_valid: the length checks against get_ndim, the permutation check, the extent check. */
  method IsValid(m: Metadata) returns (b: bool)
    ensures b == WellFormed(m)
  {
    var expected := GetNdim(m);
    if expected.Some? {
      var n := expected.value;
      if || (m.dimNames.Some? && |m.dimNames.value| != n)
         || (m.permutation.Some? && |m.permutation.value| != n)
         || (m.uniformShape.Some? && |m.uniformShape.value| != n)
      {
        return false;
      }
    }
    if m.permutation.Some? {
      var perm := m.permutation.value;
      if |perm| == 0 {
        return false;
      }
      b := SeenCheck(perm);
      if !b {
        return false;
      }
    }
    if m.uniformShape.Some? {
      var bad := AnyNonPositive(m.uniformShape.value);
      if bad {
        return false;
      }
    }
    return true;
  }

  /**
   * The permutation loop of is_valid: a seen flag per index, set as each
   * entry is met; an entry out of [0, N) or met twice fails.
   */
  method SeenCheck(perm: seq<int64>) returns (b: bool)
    ensures b == IsPermutation(perm)
  {
    var n := |perm|;
    var seen := new bool[n](_ => false);
    var k := 0;
    while k < n
      invariant 0 <= k <= n
      invariant InRange(perm[..k], n) && Distinct(perm[..k])
      invariant forall v :: 0 <= v < n ==> (seen[v] <==> v in perm[..k])
    {
      var idx := perm[k];
      if idx < 0 || idx >= n {
        assert !InRange(perm, n) by {
          assert perm[k] == idx;
        }
        return false;
      }
      if seen[idx] {
        assert !Distinct(perm) by {
          var j :| 0 <= j < k && perm[..k][j] == idx;
          assert perm[j] == perm[k];
        }
        return false;
      }
      seen[idx] := true;
      assert perm[..k + 1] == perm[..k] + [idx];
      k := k + 1;
    }
    assert perm[..k] == perm;
    return true;
  }

  /** The any_of over uniform_shape: some fixed extent is zero or negative. */
  method AnyNonPositive(dims: seq<Option<int32>>) returns (bad: bool)
    ensures bad == !FixedDimsPositive(dims)
  {
    var i := 0;
    while i < |dims|
      invariant 0 <= i <= |dims|
      invariant forall j :: 0 <= j < i && dims[j].Some? ==> dims[j].value > 0
    {
      if dims[i].Some? && dims[i].value <= 0 {
        return true;
      }
      i := i + 1;
    }
    return false;
  }

  // ---------------------------------------------------------------------
  // to_json

  /** The members to_json writes, in order: each present field, named by its key. */
  function Members(m: Metadata): (r: seq<string>)
    ensures |r| == 0 <==> AllAbsent(m)
  {
    (if m.dimNames.Some? then [MemberText(DimNamesKey, StringArrayText(m.dimNames.value))] else [])
    + (if m.permutation.Some? then [MemberText(PermutationKey, IntArrayText(m.permutation.value))] else [])
    + (if m.uniformShape.Some? then [MemberText(UniformShapeKey, NullableArrayText(m.uniformShape.value))] else [])
  }

  /** metadata::to_json: "{}" when every field is absent, else the members comma-separated between braces. */
  function Encode(m: Metadata): string {
    if AllAbsent(m) then "{}" else "{" + Join(Members(m)) + "}"
  }

  /** The joined members of present fields are never empty: each starts with a quote. */
  lemma {:induction false} JoinNonEmpty(parts: seq<string>)
    requires |parts| > 0 && |parts[0]| > 0
    ensures |Join(parts)| > 0
  {
  }

  /** to_json writes "{}" exactly for the metadata without fields, and never the empty text. */
  lemma {:induction false} EncodeEmptyObject(m: Metadata)
    ensures Encode(m) == "{}" <==> AllAbsent(m)
    ensures Encode(m) != ""
  {
    if !AllAbsent(m) {
      var parts := Members(m);
      JoinNonEmpty(parts);
      assert |Encode(m)| > 2;
    }
  }

  /** The loop of serialize_array over names: a comma before every item but the first. */
  method WriteNames(s: string, names: seq<string>) returns (r: string)
    ensures r == s + StringArrayText(names)
  {
    r := s + "[";
    var first := true;
    var i := 0;
    while i < |names|
      invariant 0 <= i <= |names| && first == (i == 0)
      invariant r == s + "[" + Join(QuotedTexts(names[..i]))
    {
      QuotedTextsSnoc(names, i);
      JoinExtend(s + "[", QuotedTexts(names[..i]), Quoted(names[i]));
      if !first {
        r := r + ",";
      }
      first := false;
      r := r + "\"" + names[i] + "\"";
      i := i + 1;
    }
    assert names[..i] == names;
    r := r + "]";
  }

  /** serialize_array over the permutation. */
  method WriteInts(s: string, xs: seq<int64>) returns (r: string)
    ensures r == s + IntArrayText(xs)
  {
    r := s + "[";
    var first := true;
    var i := 0;
    while i < |xs|
      invariant 0 <= i <= |xs| && first == (i == 0)
      invariant r == s + "[" + Join(IntTexts(xs[..i]))
    {
      IntTextsSnoc(xs, i);
      JoinExtend(s + "[", IntTexts(xs[..i]), IntText(xs[i]));
      if !first {
        r := r + ",";
      }
      first := false;
      r := r + IntText(xs[i]);
      i := i + 1;
    }
    assert xs[..i] == xs;
    r := r + "]";
  }

  /** serialize_array over uniform_shape: a free dimension is written null. */
  method WriteDims(s: string, dims: seq<Option<int32>>) returns (r: string)
    ensures r == s + NullableArrayText(dims)
  {
    r := s + "[";
    var first := true;
    var i := 0;
    while i < |dims|
      invariant 0 <= i <= |dims| && first == (i == 0)
      invariant r == s + "[" + Join(NullableTexts(dims[..i]))
    {
      NullableTextsSnoc(dims, i);
      JoinExtend(s + "[", NullableTexts(dims[..i]), NullableText(dims[i]));
      if !first {
        r := r + ",";
      }
      first := false;
      if dims[i].Some? {
        r := r + IntText(dims[i].value);
      } else {
        r := r + "null";
      }
      i := i + 1;
    }
    assert dims[..i] == dims;
    r := r + "]";
  }

  /** One field of to_json: a comma unless it is the first field, then the key and the colon. */
  method WriteKey(s: string, first: bool, key: string) returns (r: string)
    ensures r == s + (if first then "" else ",") + Quoted(key) + ":"
  {
    r := s;
    if !first {
      r := r + ",";
    }
    r := r + "\"" + key + "\":";
  }

  /** The text so far, one member longer: what Join adds for it. */
  lemma {:induction false} MemberStep(s: string, written: seq<string>, key: string, value: string, first: bool)
    requires first == (written == []) && s == "{" + Join(written)
    ensures s + (if first then "" else ",") + Quoted(key) + ":" + value == "{" + Join(written + [MemberText(key, value)])
  {
    JoinExtend("{", written, MemberText(key, value));
  }

  /** metadata::to_json */
  method ToJson(m: Metadata) returns (s: string)
    ensures s == Encode(m)
  {
    if m.dimNames.None? && m.permutation.None? && m.uniformShape.None? {
      return "{}";
    }
    s := "{";
    var first := true;
    ghost var written: seq<string> := [];
    if m.dimNames.Some? {
      var t := WriteKey(s, first, DimNamesKey);
      MemberStep(s, written, DimNamesKey, StringArrayText(m.dimNames.value), first);
      s := WriteNames(t, m.dimNames.value);
      first := false;
      written := written + [MemberText(DimNamesKey, StringArrayText(m.dimNames.value))];
    }
    if m.permutation.Some? {
      var t := WriteKey(s, first, PermutationKey);
      MemberStep(s, written, PermutationKey, IntArrayText(m.permutation.value), first);
      s := WriteInts(t, m.permutation.value);
      first := false;
      written := written + [MemberText(PermutationKey, IntArrayText(m.permutation.value))];
    }
    if m.uniformShape.Some? {
      var t := WriteKey(s, first, UniformShapeKey);
      MemberStep(s, written, UniformShapeKey, NullableArrayText(m.uniformShape.value), first);
      s := WriteDims(t, m.uniformShape.value);
      written := written + [MemberText(UniformShapeKey, NullableArrayText(m.uniformShape.value))];
    }
    assert written == Members(m);
    s := s + "}";
  }

  // ---------------------------------------------------------------------
  // from_json

  /**
   * metadata::from_json. The text is read by the JSON library, whose
   * outcome (the fields it found, or its failure) is the parameter
   * decoded; the empty text and "{}" are answered before it is consulted.
   */
  function FromJson(json: string, decoded: Result<Metadata, Error>): (r: Result<Metadata, Error>)
    ensures json == "" || json == "{}" ==> r == Ok(Default)
    ensures json != "" && json != "{}" ==> (r.Ok? <==> decoded.Ok? && WellFormed(decoded.value))
    ensures json != "" && json != "{}" && decoded.Err? ==> r == Err(JsonParsing)
    ensures r.Ok? ==> WellFormed(r.value)
    ensures r.Ok? && json != "" && json != "{}" ==> r.value == decoded.value
  {
    if json == "" || json == "{}" then Ok(Default)
    else
      match decoded
      case Err(_) => Err(JsonParsing)
      case Ok(m) => if WellFormed(m) then Ok(m) else Err(InvalidMetadata)
  }

  /**
   * from_json(to_json(m)) == m for valid metadata, given that the JSON
   * library reads back the fields to_json wrote; the metadata without
   * fields comes back through the "{}" answer.
   */
  lemma {:induction false} RoundTrip(m: Metadata, decoded: Result<Metadata, Error>)
    requires WellFormed(m)
    requires !AllAbsent(m) ==> decoded == Ok(m)
    ensures FromJson(Encode(m), decoded) == Ok(m)
  {
    EncodeEmptyObject(m);
  }

  // ---------------------------------------------------------------------
  // init and extract_metadata

  /**
   * variable_shape_tensor_extension::init: the field's pairs (none when
   * the field has no metadata) with the extension tags merged in.
   */
  function Init(existing: Option<seq<MetadataPair>>, m: Metadata): (r: seq<MetadataPair>)
    requires WellFormed(m)
    ensures HasNameTag(r, ExtensionName)
    ensures existing.Some? && HasNameTag(existing.value, ExtensionName) ==> r == existing.value
    ensures existing.None? ==> r == [(NameKey, ExtensionName), (MetadataKey, Encode(m))]
    ensures existing.Some? && !HasNameTag(existing.value, ExtensionName)
            ==> r == existing.value + [(NameKey, ExtensionName), (MetadataKey, Encode(m))]
  {
    MergeTags(existing.GetOr([]), ExtensionName, Encode(m))
  }

  /** Installing the tags a second time, with any valid parameters, changes nothing. */
  lemma InitIdempotent(existing: Option<seq<MetadataPair>>, m: Metadata, m2: Metadata)
    requires WellFormed(m) && WellFormed(m2)
    ensures Init(Some(Init(existing, m)), m2) == Init(existing, m)
  {
    MergeTagsIdempotent(existing.GetOr([]), ExtensionName, Encode(m), Encode(m2));
  }

  /** init, imperatively: search existing pairs for the name tag; append the two tags unless found. */
  method InitTags(existing: Option<seq<MetadataPair>>, m: Metadata) returns (kv: seq<MetadataPair>)
    requires WellFormed(m)
    ensures kv == Init(existing, m)
  {
    kv := [];
    if existing.Some? {
      kv := existing.value;
      var tagged := FindNameTag(kv, ExtensionName);
      if tagged {
        return kv;
      }
    }
    var json := ToJson(m);
    kv := kv + [(NameKey, ExtensionName), (MetadataKey, json)];
  }

  /**
   * variable_shape_tensor_extension::extract_metadata: no metadata, or no
   * pair under the metadata key, gives the default metadata; otherwise the
   * first such value goes through from_json (decoded is what the JSON
   * library reads from that value).
   */
  function ExtractMetadata(kv: Option<seq<MetadataPair>>, decoded: Result<Metadata, Error>): (r: Result<Metadata, Error>)
    ensures kv.None? ==> r == Ok(Default)
    ensures kv.Some? && !HasKey(kv.value, MetadataKey) ==> r == Ok(Default)
    ensures kv.Some? && HasKey(kv.value, MetadataKey)
            ==> r == FromJson(FirstValue(kv.value, MetadataKey).value, decoded)
    ensures r.Ok? ==> WellFormed(r.value)
  {
    match kv
    case None => Ok(Default)
    case Some(pairs) =>
      match FirstValue(pairs, MetadataKey)
      case None => Ok(Default)
      case Some(json) => FromJson(json, decoded)
  }

  /** extract_metadata, imperatively: the find_if search, then from_json of what it found. */
  method Extract(kv: Option<seq<MetadataPair>>, decoded: Result<Metadata, Error>) returns (r: Result<Metadata, Error>)
    ensures r == ExtractMetadata(kv, decoded)
  {
    if kv.None? {
      return Ok(Default);
    }
    var found := FindFirstValue(kv.value, MetadataKey);
    if found.None? {
      return Ok(Default);
    }
    r := FromJson(found.value, decoded);
  }

  /**
   * What init installs on pairs that carry neither tag, extract_metadata
   * reads back, given that the JSON library reads back what to_json wrote.
   */
  lemma {:induction false} ExtractAfterInit(existing: Option<seq<MetadataPair>>, m: Metadata, decoded: Result<Metadata, Error>)
    requires WellFormed(m)
    requires existing.Some? ==> !HasNameTag(existing.value, ExtensionName) && !HasKey(existing.value, MetadataKey)
    requires !AllAbsent(m) ==> decoded == Ok(m)
    ensures ExtractMetadata(Some(Init(existing, m)), decoded) == Ok(m)
  {
    var pairs := existing.GetOr([]);
    assert !HasNameTag(pairs, ExtensionName) && !HasKey(pairs, MetadataKey);
    FirstValueAfterMerge(pairs, ExtensionName, Encode(m));
    RoundTrip(m, decoded);
  }
}
