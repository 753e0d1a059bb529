/**
 * fixed_shape_tensor_array (include/sparrow_extensions/fixed_shape_tensor.hpp,
 * src/fixed_shape_tensor.cpp): a fixed-size list array whose lists are the
 * row-major elements of equally shaped tensors, together with the tensor
 * parameters and the field's name and key/value metadata. The storage is
 * modelled by its flat values, its list size and one validity flag per list.
 */
module FixedShapeTensorArray {
  import opened Wrappers
  import opened ExtensionTags
  import opened FixedShapeTensor

  /** The values of list i: the i-th run of k values. */
  function Chunk<T>(values: seq<T>, k: nat, i: nat): (r: seq<T>)
    requires i * k + k <= |values|
    ensures |r| == k
  {
    values[i * k..i * k + k]
  }

  /** The first n lists of k values each. */
  function Chunks<T>(values: seq<T>, k: nat, n: nat): (r: seq<seq<T>>)
    requires n * k <= |values|
    ensures |r| == n
    ensures forall i :: 0 <= i < n ==> i * k + k <= |values| && r[i] == Chunk(values, k, i)
    decreases n
  {
    if n == 0 then []
    else
      var front := Chunks(values, k, n - 1);
      assert (n - 1) * k + k == n * k;
      front + [Chunk(values, k, n - 1)]
  }

  /** The lists laid end to end. */
  function Flatten<T>(lists: seq<seq<T>>): seq<T> {
    if lists == [] then [] else Flatten(lists[..|lists| - 1]) + lists[|lists| - 1]
  }

  /** Laid end to end, the first n lists are the first n * k flat values: chunking loses nothing. */
  lemma {:induction false} FlattenChunks<T>(values: seq<T>, k: nat, n: nat)
    requires n * k <= |values|
    ensures Flatten(Chunks(values, k, n)) == values[..n * k]
    decreases n
  {
    if n > 0 {
      var lists := Chunks(values, k, n);
      assert (n - 1) * k + k == n * k;
      assert lists[..n - 1] == Chunks(values, k, n - 1);
      FlattenChunks(values, k, n - 1);
      assert values[..n * k] == values[..(n - 1) * k] + values[(n - 1) * k..n * k];
    }
  }

  /** n copies of true: the validity of a storage built without a bitmap. */
  function AllPresent(n: nat): (r: seq<bool>)
    ensures |r| == n && forall i :: 0 <= i < n ==> r[i]
  {
    seq(n, _ => true)
  }

  lemma {:induction false} DivisionExact(size: nat, k: nat)
    requires k > 0 && size % k == 0
    ensures size / k * k == size
  {
  }

  class FixedShapeTensorArray<T> {
    /** The fixed list size of the storage: the element count of one tensor. */
    const listSize: nat
    /** The flat values, row-major, tensor after tensor. */
    var values: seq<T>
    /** One flag per tensor: false where the tensor is null. */
    var validity: seq<bool>
    var metadata: Metadata
    /** The name and the key/value metadata of the storage's field. */
    var name: Option<string>
    var kv: Option<seq<MetadataPair>>

    /** The values fill whole lists, one per validity flag, and the parameters are valid. */
    predicate Valid()
      reads this
    {
      |values| == |validity| * listSize && WellFormed(metadata)
    }

    /**
     * The constructors from a list size, flat values and parameters (with,
     * optionally, a validity bitmap, a name and key/value pairs). The name
     * and the pairs are installed first; then the extension tags are merged
     * into those pairs.
     */
    constructor(listSize: nat, flat: seq<T>, tensorMetadata: Metadata,
                validityInput: Option<seq<bool>>, name: Option<string>,
                arrowMetadata: Option<seq<MetadataPair>>)
      requires WellFormed(tensorMetadata)
      requires listSize == ComputeSize(tensorMetadata.shape)
      requires listSize > 0 && |flat| % listSize == 0
      requires validityInput.Some? ==> |validityInput.value| == |flat| / listSize
      ensures Valid()
      ensures this.listSize == listSize && values == flat && metadata == tensorMetadata
      ensures Size() == |flat| / listSize
      ensures validityInput.Some? ==> validity == validityInput.value
      ensures validityInput.None? ==> validity == AllPresent(|flat| / listSize)
      ensures this.name == name
      ensures kv == Some(Init(arrowMetadata, tensorMetadata))
    {
      this.listSize := listSize;
      values := flat;
      validity := if validityInput.Some? then validityInput.value else AllPresent(|flat| / listSize);
      metadata := tensorMetadata;
      this.name := None;
      kv := None;
      new;
      DivisionExact(|flat|, listSize);
      if name.Some? {
        this.name := name;
      }
      if arrowMetadata.Some? {
        kv := arrowMetadata;
      }
      var tags := InitTags(kv, metadata);
      kv := Some(tags);
    }

    /**
     * The constructor from an existing field: its storage, name and pairs as
     * they are, and the parameters read back from its pairs, which must be
     * present and valid.
     */
    constructor FromProxy(listSize: nat, flat: seq<T>, validity: seq<bool>,
                          name: Option<string>, kv: Option<seq<MetadataPair>>)
      requires |flat| == |validity| * listSize
      requires ExtractMetadata(kv).Ok?
      ensures Valid()
      ensures this.listSize == listSize && values == flat && this.validity == validity
      ensures metadata == ExtractMetadata(kv).value
      ensures this.name == name && this.kv == kv
    {
      this.listSize := listSize;
      values := flat;
      this.validity := validity;
      this.name := name;
      this.kv := kv;
      var m := Extract(kv);
      metadata := m.value;
    }

    /** size(): the number of tensors, the lists the flat values are cut into. */
    function Size(): (r: nat)
      reads this
      requires Valid()
      ensures r == |validity| && r * listSize == |values|
    {
      |validity|
    }

    /** shape(): the extents of every tensor, non-empty and positive. */
    function Shape(): (r: seq<int64>)
      reads this
      requires Valid()
      ensures |r| > 0 && AllPositive(r)
      ensures r == metadata.shape
    {
      metadata.shape
    }

    /** empty(): no tensors, which with a positive list size means no values. */
    function Empty(): (b: bool)
      reads this
      requires Valid()
      ensures b <==> Size() == 0
      ensures listSize > 0 ==> (b <==> |values| == 0)
    {
      |validity| == 0
    }

    /** operator[]: tensor i, null exactly where its validity flag is false. */
    function Get(i: nat): (r: Nullable<seq<T>>)
      reads this
      requires Valid() && i < Size()
      ensures r.hasValue == validity[i]
      ensures i * listSize + listSize <= |values| && r.value == Chunk(values, listSize, i)
    {
      MulBound(i, |validity|, listSize);
      Nullable(Chunk(values, listSize, i), validity[i])
    }

    /** at(i): tensor i, or out_of_range exactly when i is not below size(). */
    function At(i: nat): (r: Result<Nullable<seq<T>>, IndexError>)
      reads this
      requires Valid()
      ensures r.Err? <==> i >= Size()
      ensures r.Err? ==> r.error == OutOfRange(i, Size())
      ensures r.Ok? ==> r.value == Get(i)
    {
      if i >= |validity| then Err(OutOfRange(i, |validity|)) else Ok(Get(i))
    }

    /** is_valid(): whether the parameters are valid, which every constructed array's are. */
    function IsValid(): (b: bool)
      reads this
      requires Valid()
      ensures b
    {
      WellFormed(metadata)
    }

    /** Forward iteration: size() tensors, in storage order. */
    method Elements() returns (r: seq<Nullable<seq<T>>>)
      requires Valid()
      ensures |r| == Size()
      ensures forall i :: 0 <= i < |r| ==> r[i] == Get(i)
    {
      r := [];
      var i := 0;
      while i < |validity|
        invariant 0 <= i <= |validity|
        invariant |r| == i && forall j :: 0 <= j < i ==> r[j] == Get(j)
      {
        r := r + [Get(i)];
        i := i + 1;
      }
    }

    /** Reverse iteration: size() tensors, last first. */
    method ReverseElements() returns (r: seq<Nullable<seq<T>>>)
      requires Valid()
      ensures |r| == Size()
      ensures forall k :: 0 <= k < |r| ==> r[k] == Get(Size() - 1 - k)
    {
      r := [];
      var i := |validity|;
      while i > 0
        invariant 0 <= i <= |validity|
        invariant |r| == |validity| - i
        invariant forall k :: 0 <= k < |r| ==> r[k] == Get(|validity| - 1 - k)
      {
        i := i - 1;
        r := r + [Get(i)];
      }
    }

    /** The tensors' values, laid end to end in iteration order, are the flat values. */
    lemma {:induction false} ElementsCoverValues()
      requires Valid()
      ensures Flatten(Chunks(values, listSize, Size())) == values
    {
      FlattenChunks(values, listSize, |validity|);
      assert values[..|validity| * listSize] == values;
    }
  }

  lemma MulBound(i: nat, n: nat, k: nat)
    requires i < n
    ensures i * k + k <= n * k
  {
    assert i * k + k == (i + 1) * k;
    assert (i + 1) * k <= n * k by {
      if k > 0 {
        assert i + 1 <= n;
      }
    }
  }
}
