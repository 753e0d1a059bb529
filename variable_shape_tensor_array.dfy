/**
 * variable_shape_tensor_array (include/sparrow_extensions/variable_shape_tensor.hpp,
 * src/variable_shape_tensor.cpp): a struct array with a "data" child (one
 * list of values per tensor) and a "shape" child (one fixed-size list of
 * extents per tensor), together with the tensor parameters and the field's
 * name and key/value metadata.
 */
module VariableShapeTensorArray {
  import opened Wrappers
  import opened ExtensionTags
  import opened VariableShapeTensor

  /** variable_shape_tensor_array::data_field_name() */
  const DataFieldName: string := "data"
  /** variable_shape_tensor_array::shape_field_name() */
  const ShapeFieldName: string := "shape"

  /** The values of a child array: lists of tensor values, or lists of extents. */
  datatype Column<T> =
    | Lists(lists: seq<seq<T>>)
    | Extents(rows: seq<seq<int32>>)
  {
    function Length(): nat {
      match this
      case Lists(ls) => |ls|
      case Extents(rs) => |rs|
    }
  }

  /** A child array and the name of its field. */
  datatype Child<T> = Child(name: string, column: Column<T>)

  /** One entry of a struct value: the entry of one child. */
  datatype Cell<T> = Values(values: seq<T>) | Shape(extents: seq<int32>)

  /** The entry of a child at index i. */
  function CellAt<T>(c: Column<T>, i: nat): Cell<T>
    requires i < c.Length()
  {
    match c
    case Lists(ls) => Values(ls[i])
    case Extents(rs) => Shape(rs[i])
  }

  /**
   * detail::make_tensor_struct: the data array renamed "data" and the shape
   * array renamed "shape", pushed in that order as the two children.
   */
  method MakeTensorStruct<T>(tensorData: Child<T>, tensorShapes: Child<T>) returns (children: seq<Child<T>>)
    ensures |children| == 2
    ensures children[0] == tensorData.(name := DataFieldName)
    ensures children[1] == tensorShapes.(name := ShapeFieldName)
  {
    var data := tensorData.(name := "data");
    var shapes := tensorShapes.(name := "shape");
    children := [];
    children := children + [data];
    children := children + [shapes];
  }

  /** Every child has one entry per struct row. */
  predicate Aligned<T>(children: seq<Child<T>>, n: nat) {
    forall j :: 0 <= j < |children| ==> children[j].column.Length() == n
  }

  class VariableShapeTensorArray<T> {
    var children: seq<Child<T>>
    /** One flag per tensor: false where the tensor is null. */
    var validity: seq<bool>
    var metadata: Metadata
    /** The name and the key/value metadata of the storage's field. */
    var name: Option<string>
    var kv: Option<seq<MetadataPair>>

    /** Every child has one entry per tensor, and the parameters are valid. */
    predicate Valid()
      reads this
    {
      Aligned(children, |validity|) && WellFormed(metadata)
    }

    /**
     * The constructors from a data array, a shape array, the dimension
     * count and the parameters (with, optionally, a validity bitmap, a name
     * and key/value pairs): the struct of the two children, then
     * validate_and_init.
     */
    constructor(ndim: nat, data: seq<seq<T>>, shapes: seq<seq<int32>>, tensorMetadata: Metadata,
                validityInput: Option<seq<bool>>, name: Option<string>,
                arrowMetadata: Option<seq<MetadataPair>>)
      requires |data| == |shapes|
      requires forall i :: 0 <= i < |shapes| ==> |shapes[i]| == ndim
      requires WellFormed(tensorMetadata)
      requires GetNdim(tensorMetadata).Some? ==> ndim == GetNdim(tensorMetadata).value
      requires validityInput.Some? ==> |validityInput.value| == |data|
      ensures Valid() && |children| == 2
      ensures children[0] == Child(DataFieldName, Lists(data))
      ensures children[1] == Child(ShapeFieldName, Extents(shapes))
      ensures validityInput.Some? ==> validity == validityInput.value
      ensures validityInput.None? ==> |validity| == |data| && forall i :: 0 <= i < |data| ==> validity[i]
      ensures metadata == tensorMetadata && this.name == name
      ensures kv == Some(Init(arrowMetadata, tensorMetadata))
    {
      var c := MakeTensorStruct(Child("", Lists(data)), Child("", Extents(shapes)));
      children := c;
      validity := if validityInput.Some? then validityInput.value else seq(|data|, _ => true);
      metadata := tensorMetadata;
      this.name := None;
      kv := None;
      new;
      ValidateAndInit(ndim, name, arrowMetadata);
    }

    /**
     * The constructor from an existing field: its children, name and pairs
     * as they are, and the parameters read back from its pairs (decoded is
     * what the JSON library reads from the stored value).
     */
    constructor FromProxy(children: seq<Child<T>>, validity: seq<bool>, name: Option<string>,
                          kv: Option<seq<MetadataPair>>, decoded: Result<Metadata, Error>)
      requires Aligned(children, |validity|)
      requires ExtractMetadata(kv, decoded).Ok?
      ensures Valid()
      ensures this.children == children && this.validity == validity
      ensures metadata == ExtractMetadata(kv, decoded).value
      ensures this.name == name && this.kv == kv
    {
      this.children := children;
      this.validity := validity;
      this.name := name;
      this.kv := kv;
      var m := Extract(kv, decoded);
      metadata := m.value;
    }

    /**
     * validate_and_init: the parameters must be valid and agree with the
     * dimension count when they fix one; the name and the pairs are
     * installed, then the extension tags are merged into the pairs.
     */
    method ValidateAndInit(ndim: nat, newName: Option<string>, arrowMetadata: Option<seq<MetadataPair>>)
      requires WellFormed(metadata)
      requires GetNdim(metadata).Some? ==> ndim == GetNdim(metadata).value
      modifies this
      ensures children == old(children) && validity == old(validity) && metadata == old(metadata)
      ensures name == (if newName.Some? then newName else old(name))
      ensures kv == Some(Init(if arrowMetadata.Some? then arrowMetadata else old(kv), metadata))
    {
      if newName.Some? {
        name := newName;
      }
      if arrowMetadata.Some? {
        kv := arrowMetadata;
      }
      var tags := InitTags(kv, metadata);
      kv := Some(tags);
    }

    /** size(): the number of tensors, the length every child shares. */
    function Size(): (r: nat)
      reads this
      requires Valid()
      ensures forall j :: 0 <= j < |children| ==> children[j].column.Length() == r
    {
      |validity|
    }

    /** ndim(): the count get_ndim reports, which for valid parameters every present field has. */
    function Ndim(): (r: Option<nat>)
      reads this
      requires Valid()
      ensures r.None? <==> AllAbsent(metadata)
      ensures r.Some? && metadata.dimNames.Some? ==> r.value == |metadata.dimNames.value|
      ensures r.Some? && metadata.permutation.Some? ==> r.value == |metadata.permutation.value|
      ensures r.Some? && metadata.uniformShape.Some? ==> r.value == |metadata.uniformShape.value|
    {
      NdimOfValid(metadata);
      GetNdim(metadata)
    }

    /** empty(): size() == 0, which leaves every child empty. */
    function Empty(): (b: bool)
      reads this
      requires Valid()
      ensures b <==> Size() == 0
      ensures b ==> forall j :: 0 <= j < |children| ==> children[j].column.Length() == 0
    {
      Size() == 0
    }

    /** operator[]: row i of the struct, one cell per child, null where its validity flag is false. */
    function Get(i: nat): (r: Nullable<seq<Cell<T>>>)
      reads this
      requires Valid() && i < Size()
      ensures r.hasValue == validity[i] && |r.value| == |children|
      ensures forall j :: 0 <= j < |children| ==> r.value[j] == CellAt(children[j].column, i)
    {
      var cs := children;
      Nullable(seq(|cs|, j requires 0 <= j < |cs| && i < cs[j].column.Length() => CellAt(cs[j].column, i)), validity[i])
    }

    /** at(i): tensor i, or out_of_range exactly when i is not below size(). */
    function At(i: nat): (r: Result<Nullable<seq<Cell<T>>>, IndexError>)
      reads this
      requires Valid()
      ensures r.Err? <==> i >= Size()
      ensures r.Err? ==> r.error == OutOfRange(i, Size())
      ensures r.Ok? ==> r.value == Get(i)
    {
      if i >= |validity| then Err(OutOfRange(i, |validity|)) else Ok(Get(i))
    }

    /** is_valid(): exactly two children and valid parameters. */
    function IsValid(): (b: bool)
      reads this
      requires Valid()
      ensures b <==> |children| == 2
    {
      |children| == 2 && WellFormed(metadata)
    }

    /** data_child(): child 0, one list of values per tensor. */
    function DataChild(): (c: Child<T>)
      reads this
      requires Valid() && |children| > 0
      ensures c == children[0] && c.column.Length() == Size()
    {
      children[0]
    }

    /** shape_child(): child 1, one list of extents per tensor. */
    function ShapeChild(): (c: Child<T>)
      reads this
      requires Valid() && |children| > 1
      ensures c == children[1] && c.column.Length() == Size()
    {
      children[1]
    }

    /** names(): the field names of the children, in order. */
    function Names(): (r: seq<string>)
      reads this
      ensures |r| == |children|
      ensures forall j :: 0 <= j < |children| ==> r[j] == children[j].name
    {
      seq(|children|, j requires 0 <= j < |children| reads this => children[j].name)
    }

    /** Forward iteration: size() tensors, in storage order. */
    method Elements() returns (r: seq<Nullable<seq<Cell<T>>>>)
      requires Valid()
      ensures |r| == Size()
      ensures forall i :: 0 <= i < |r| ==> r[i] == Get(i)
    {
      r := [];
      var i := 0;
      while i < |validity|
        invariant 0 <= i <= |validity|
        invariant |r| == i && forall j :: 0 <= j < i ==> r[j] == Get(j)
      {
        r := r + [Get(i)];
        i := i + 1;
      }
    }

    /** Reverse iteration: size() tensors, last first. */
    method ReverseElements() returns (r: seq<Nullable<seq<Cell<T>>>>)
      requires Valid()
      ensures |r| == Size()
      ensures forall k :: 0 <= k < |r| ==> r[k] == Get(Size() - 1 - k)
    {
      r := [];
      var i := |validity|;
      while i > 0
        invariant 0 <= i <= |validity|
        invariant |r| == |validity| - i
        invariant forall k :: 0 <= k < |r| ==> r[k] == Get(|validity| - 1 - k)
      {
        i := i - 1;
        r := r + [Get(i)];
      }
    }
  }

  /** The struct make_tensor_struct builds: two children, "data" first, both of the tensor count. */
  lemma {:induction false} TensorStructShape<T>(data: seq<seq<T>>, shapes: seq<seq<int32>>)
    requires |data| == |shapes|
    ensures var children := [Child(DataFieldName, Lists(data)), Child(ShapeFieldName, Extents(shapes))];
            Aligned(children, |data|) && children[0].name != children[1].name
  {
    var children := [Child(DataFieldName, Lists(data)), Child(ShapeFieldName, Extents(shapes))];
    assert children[0].column.Length() == |data|;
  }
}
