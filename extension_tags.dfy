/**
 * The key/value metadata of an Arrow field and the two reserved keys of the
 * Arrow extension-type mechanism: the extension name and its serialized
 * parameters. Both tensor types merge their tags into a field's metadata in
 * the same way (the init functions of src/fixed_shape_tensor.cpp and
 * src/variable_shape_tensor.cpp) and read the parameters back by key.
 */
module ExtensionTags {
  import opened Wrappers

  /** sparrow::metadata_pair: one key and its value. */
  type MetadataPair = (string, string)

  const NameKey: string := "ARROW:extension:name"
  const MetadataKey: string := "ARROW:extension:metadata"

  /** Some pair of kv tags the field with the extension name. */
  predicate HasNameTag(kv: seq<MetadataPair>, name: string) {
    exists i :: 0 <= i < |kv| && kv[i] == (NameKey, name)
  }

  /** Some pair of kv has the key. */
  predicate HasKey(kv: seq<MetadataPair>, key: string) {
    exists i :: 0 <= i < |kv| && kv[i].0 == key
  }

  /**
   * The metadata init installs: unchanged when the name tag is already
   * there, otherwise the existing pairs in order followed by exactly the
   * name pair and the parameters pair.
   */
  function MergeTags(kv: seq<MetadataPair>, name: string, json: string): (r: seq<MetadataPair>)
    ensures HasNameTag(r, name)
    ensures |kv| <= |r| && r[..|kv|] == kv
    ensures HasNameTag(kv, name) ==> r == kv
    ensures !HasNameTag(kv, name) ==> r[|kv|..] == [(NameKey, name), (MetadataKey, json)]
  {
    if HasNameTag(kv, name) then kv
    else
      var r := kv + [(NameKey, name), (MetadataKey, json)];
      assert r[|kv|] == (NameKey, name);
      r
  }

  /** Merging the tags a second time, with any parameters, changes nothing. */
  lemma MergeTagsIdempotent(kv: seq<MetadataPair>, name: string, json: string, json2: string)
    ensures MergeTags(MergeTags(kv, name, json), name, json2) == MergeTags(kv, name, json)
  {
  }

  /** The value of the first pair with the key, if any (std::ranges::find_if). */
  function FirstValue(kv: seq<MetadataPair>, key: string): (r: Option<string>)
    ensures r.Some? <==> HasKey(kv, key)
    ensures r.Some? ==> exists i :: 0 <= i < |kv| && kv[i] == (key, r.value) && !HasKey(kv[..i], key)
  {
    if kv == [] then None
    else if kv[0].0 == key then
      assert kv[..0] == [];
      Some(kv[0].1)
    else
      var r := FirstValue(kv[1..], key);
      assert HasKey(kv[1..], key) ==> HasKey(kv, key) by {
        if HasKey(kv[1..], key) {
          var i :| 0 <= i < |kv[1..]| && kv[1..][i].0 == key;
          assert kv[i + 1].0 == key;
        }
      }
      if r.Some? then
        var i :| 0 <= i < |kv[1..]| && kv[1..][i] == (key, r.value) && !HasKey(kv[1..][..i], key);
        assert kv[i + 1] == (key, r.value);
        assert kv[..i + 1] == [kv[0]] + kv[1..][..i];
        r
      else
        r
  }

  /** After merging into pairs without the tags, the parameters are the first value under the metadata key. */
  lemma {:induction false} FirstValueAfterMerge(kv: seq<MetadataPair>, name: string, json: string)
    requires !HasNameTag(kv, name) && !HasKey(kv, MetadataKey)
    ensures FirstValue(MergeTags(kv, name, json), MetadataKey) == Some(json)
  {
    var r := MergeTags(kv, name, json);
    assert r == kv + [(NameKey, name), (MetadataKey, json)];
    FirstValueSkips(kv, [(NameKey, name), (MetadataKey, json)], MetadataKey);
    assert [(NameKey, name), (MetadataKey, json)][1..] == [(MetadataKey, json)];
  }

  /** Pairs without the key do not change the first value found after them. */
  lemma {:induction false} FirstValueSkips(kv: seq<MetadataPair>, rest: seq<MetadataPair>, key: string)
    requires !HasKey(kv, key)
    ensures FirstValue(kv + rest, key) == FirstValue(rest, key)
    decreases |kv|
  {
    if kv != [] {
      assert kv[0].0 != key;
      assert (kv + rest)[1..] == kv[1..] + rest;
      assert !HasKey(kv[1..], key) by {
        forall i | 0 <= i < |kv[1..]| ensures kv[1..][i].0 != key {
          assert kv[1..][i] == kv[i + 1];
        }
      }
      FirstValueSkips(kv[1..], rest, key);
    } else {
      assert kv + rest == rest;
    }
  }

  /** The find_if search of init: whether the name tag is among the pairs. */
  method FindNameTag(kv: seq<MetadataPair>, name: string) returns (found: bool)
    ensures found == HasNameTag(kv, name)
  {
    found := false;
    var i := 0;
    while i < |kv| && !found
      invariant 0 <= i <= |kv|
      invariant found <==> HasNameTag(kv[..i], name)
    {
      found := kv[i].0 == NameKey && kv[i].1 == name;
      assert kv[..i + 1] == kv[..i] + [kv[i]];
      i := i + 1;
    }
    if found {
      var j :| 0 <= j < |kv[..i]| && kv[..i][j] == (NameKey, name);
      assert kv[j] == (NameKey, name);
    } else {
      assert kv[..i] == kv;
    }
  }

  /** The search loop of extract_metadata: the value of the first pair with the key. */
  method FindFirstValue(kv: seq<MetadataPair>, key: string) returns (r: Option<string>)
    ensures r == FirstValue(kv, key)
  {
    var i := 0;
    while i < |kv|
      invariant 0 <= i <= |kv|
      invariant FirstValue(kv, key) == FirstValue(kv[i..], key)
    {
      if kv[i].0 == key {
        return Some(kv[i].1);
      }
      assert kv[i..][1..] == kv[i + 1..];
      i := i + 1;
    }
    assert kv[i..] == [];
    r := None;
  }
}
