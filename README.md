# Fixed- and variable-shape tensor extension types

This project models, in Dafny, the two Apache Arrow canonical tensor
extension types of sparrow-extensions:

- `arrow.fixed_shape_tensor`. Every tensor has the same shape. The storage is
  a fixed-size list array: one list of `product(shape)` values per tensor, in
  row-major order.
- `arrow.variable_shape_tensor`. Every tensor has its own shape. The storage
  is a struct array with two children. The `data` child holds one list of
  values per tensor. The `shape` child holds one list of `ndim` extents per
  tensor.

For each type the model covers the following.

- The parameters (`metadata`):
  - the validator `is_valid`;
  - `compute_size` (fixed shape) and `get_ndim` (variable shape);
  - the JSON writer `to_json` and the JSON reader `from_json`.
- The extension tags in the field's key/value metadata:
  - `init` appends `ARROW:extension:name` and `ARROW:extension:metadata`
    unless the name tag is already present;
  - `extract_metadata` reads the parameters back.
- The array classes `fixed_shape_tensor_array` and `variable_shape_tensor_array`:
  - their constructors, with the documented preconditions as `requires`;
  - `size`, `shape`/`ndim`, `operator[]`, `at`, `empty` and `is_valid`;
  - the `data`/`shape` children and `make_tensor_struct`;
  - forward and reverse iteration.

The modules follow the source's structure.

| module | models |
|---|---|
| `Wrappers` | `Option`, `Result`, `Nullable` (sparrow's nullable value), the 64- and 32-bit integer ranges |
| `Permutations` | what "a permutation of 0..N-1" means, and the sort the fixed-shape validator relies on |
| `JsonText` | the text the writers produce: integers, quoted strings, comma-joined arrays, members |
| `JsonScanner` | the cursor helpers inside the fixed-shape `from_json`: whitespace skipping, strings, `std::stoll` integers, arrays |
| `ExtensionTags` | the tag merge shared by both `init`s, and the first-match lookup of `extract_metadata` |
| `FixedShapeTensor` | `fixed_shape_tensor_extension` and its `metadata` |
| `FixedShapeTensorArray` | `fixed_shape_tensor_array` |
| `VariableShapeTensor` | `variable_shape_tensor_extension` and its `metadata` |
| `VariableShapeTensorArray` | `variable_shape_tensor_array` and `detail::make_tensor_struct` |

The code is modelled in two layers.

- Each loop of the source is a `method` with a `while` loop and its
  invariants:
  - the validators;
  - the writers;
  - the fixed-shape reader over a `Cursor` object that holds the shared
    position;
  - the tag search;
  - iteration.
- Each method is proved equal to a pure specification function, and the
  properties are proved about that function:
  - `WellFormed`, `IsPermutation`, `Encode` and `Decode`;
  - `ParseIntArray` and the other scanner functions;
  - `MergeTags`, `FirstValue`, `Init` and `ExtractMetadata`.

Example: `FixedShapeTensor.RoundTrip` proves that the hand-written reader
returns what the writer wrote. `FixedShapeTensor.ExtractAfterInit` proves
that `extract_metadata` returns the parameters `init` stored.

Where the documentation and the code disagree, the model follows the code:

- The variable-shape `is_valid` is documented to require equal lengths when
  all three of `dim_names`, `permutation` and `uniform_shape` are present.
  The code (src/variable_shape_tensor.cpp:68-81) compares every present
  field with the first present one. `VariableShapeTensor.WellFormed`
  therefore requires equal lengths of any present fields. It also rejects an
  empty permutation, as the code does at line 87.
- The fixed-shape reader accepts inputs the Arrow format does not allow:
  - a comma right before the closing brace (`FixedShapeTensor.TrailingCommaAccepted`);
  - a repeated key, where the last occurrence wins (`FixedShapeTensor.RepeatedKeyOverwrites`);
  - any text after the closing brace of the object `to_json` writes (`FixedShapeTensor.TrailingTextIgnored`).

  These are modelled and proved as the code behaves.

## Model

| member | source | states |
|---|---|---|
| FixedShapeTensor.IsValid | src/fixed_shape_tensor.cpp:31-75 | returns true exactly when the parameters are well formed: non-empty positive shape, as many names as dimensions, and a permutation of 0..N-1 of the right length |
| FixedShapeTensor.SortedIsRange | src/fixed_shape_tensor.cpp:62-71 | the sort-then-compare-with-index check is true exactly when the sequence is a permutation of 0..N-1 (entries in range and pairwise distinct) |
| FixedShapeTensor.IsRangeLoop | src/fixed_shape_tensor.cpp:65-71 | the loop over the sorted copy finds no mismatch exactly when entry i is i for every i |
| Permutations.SortCopy | src/fixed_shape_tensor.cpp:63-64 | the sorted copy is sorted, has the same length and holds the same multiset of values |
| Permutations.SortedCopyIsRangeIff | src/fixed_shape_tensor.cpp:62-71 | the sorted copy is 0,1,...,N-1 if and only if the original is a permutation of 0..N-1 |
| FixedShapeTensor.ComputeSize | src/fixed_shape_tensor.cpp:77-85 | the element count of a shape: 1 for the empty shape (the accumulation starts from 1), the extent itself for one dimension, and 0 as soon as any extent is 0 |
| FixedShapeTensor.ComputeSizeAppend | src/fixed_shape_tensor.cpp:77-85 | the element count of a concatenated shape is the product of the element counts of its parts |
| FixedShapeTensor.ComputeSizePositive | src/fixed_shape_tensor.cpp:77-85 | the element count of a shape of positive extents is at least 1 |
| FixedShapeTensor.ComputeSizeExamples | tests/test_fixed_shape_tensor.cpp:93-118 | shapes [2,5], [100,200,500], [42] and [2,3,4,5] hold 10, 10000000, 42 and 120 elements |
| FixedShapeTensor.WriteInts | src/fixed_shape_tensor.cpp:91-98 | the loop appends the integers separated by commas |
| FixedShapeTensor.WriteNames | src/fixed_shape_tensor.cpp:104-111 | the loop appends the names, each in double quotes, separated by commas |
| FixedShapeTensor.WriteDimNames | src/fixed_shape_tensor.cpp:101-113 | appends the `dim_names` member exactly when names are present |
| FixedShapeTensor.WritePermutation | src/fixed_shape_tensor.cpp:115-127 | appends the `permutation` member exactly when a permutation is present |
| FixedShapeTensor.ToJson | src/fixed_shape_tensor.cpp:87-131 | produces the object with `shape` first, then the optional `dim_names` and `permutation` members (Encode) |
| JsonScanner.Cursor.SkipWhitespace | src/fixed_shape_tensor.cpp:146-152 | advances the shared position past the space character and characters 9 to 13 (tab, line feed, vertical tab, form feed, carriage return: `std::isspace` in the C locale), to the first other character or the end |
| JsonScanner.Cursor.ReadString | src/fixed_shape_tensor.cpp:155-178 | reads a quoted string without escapes, failing on a missing opening or closing quote, and leaves the position after the closing quote |
| JsonScanner.Cursor.ReadInt | src/fixed_shape_tensor.cpp:181-194 | reads an optional sign and digits and converts them as std::stoll does, failing without digits or outside the 64-bit range |
| JsonScanner.Cursor.ReadIntArray | src/fixed_shape_tensor.cpp:197-238 | reads `[` and either `]` or comma-separated integers closed by `]`, failing at the end of the text or on any other separator |
| JsonScanner.Cursor.ReadIntElems | src/fixed_shape_tensor.cpp:213-236 | the element loop of the integer array reader |
| JsonScanner.Cursor.ReadStringArray | src/fixed_shape_tensor.cpp:241-282 | reads `[` and either `]` or comma-separated strings closed by `]`, with the same failures |
| JsonScanner.Cursor.ReadStringElems | src/fixed_shape_tensor.cpp:257-280 | the element loop of the string array reader |
| JsonScanner.ParseIntArrayText | src/fixed_shape_tensor.cpp:197-238 | reading back an integer array as the writer writes it returns the same integers and stops right after it |
| JsonScanner.ParseStringArrayText | src/fixed_shape_tensor.cpp:241-282 | reading back a string array as the writer writes it returns the same strings when none contains a double quote |
| JsonScanner.ParseIntText | src/fixed_shape_tensor.cpp:181-194 | reading back a 64-bit integer written in decimal returns that integer |
| JsonText.NatTextValue | src/fixed_shape_tensor.cpp:97 | the decimal digits written for a natural number denote that number |
| FixedShapeTensor.ReadMember | src/fixed_shape_tensor.cpp:306-330 | reads a key, a colon and the value that key selects, and fails with `UnknownKey` on any key other than the three |
| FixedShapeTensor.ReadBody | src/fixed_shape_tensor.cpp:292-349 | the member loop accepts `}` at the top of each turn, and after each member expects `}` or `,` |
| FixedShapeTensor.FromJson | src/fixed_shape_tensor.cpp:134-362 | returns exactly what the reader specification Decode gives: brace, member loop, then a missing-shape check and validation |
| FixedShapeTensor.Validate | src/fixed_shape_tensor.cpp:351-359 | an empty shape is reported as the missing `shape` field; otherwise the result is Ok exactly when the parameters are well formed |
| FixedShapeTensor.Decode | src/fixed_shape_tensor.cpp:134-362 | whatever the reader accepts is well formed and began with an opening brace |
| FixedShapeTensor.RoundTrip | src/fixed_shape_tensor.cpp:87-362 | reading back the text to_json writes for well-formed parameters (names without double quotes) gives the same parameters |
| FixedShapeTensor.TrailingTextIgnored | src/fixed_shape_tensor.cpp:341-349 | after the object `to_json` writes for any parameters whose names have no double quotes, whatever text follows is ignored |
| FixedShapeTensor.EmptyShapeIsMissing | src/fixed_shape_tensor.cpp:351-354 | parameters written with an empty shape are read back as the missing `shape` error |
| FixedShapeTensor.EmptyObjectIsMissingShape | src/fixed_shape_tensor.cpp:300-304 | `{}` is read as the missing `shape` error |
| FixedShapeTensor.RepeatedKeyOverwrites | src/fixed_shape_tensor.cpp:314-317 | a second `shape` member replaces the first |
| FixedShapeTensor.TrailingCommaAccepted | src/fixed_shape_tensor.cpp:292-349 | a comma right before the closing brace is accepted |
| FixedShapeTensor.UnknownKeyFails | src/fixed_shape_tensor.cpp:327-330 | a first key other than shape, dim_names and permutation makes the reader fail with that key |
| FixedShapeTensor.UnterminatedKeyFails | src/fixed_shape_tensor.cpp:155-173 | an opening brace and a key whose closing quote never comes fail with `ExpectedClosingQuote` |
| FixedShapeTensor.MissingColonFails | src/fixed_shape_tensor.cpp:306-312 | a key followed, after optional whitespace, by anything but a colon (or by the end) fails with `ExpectedColon` |
| FixedShapeTensor.ValueNotArrayFails | src/fixed_shape_tensor.cpp:197-248 | the value of `shape`, `dim_names` or `permutation` that does not start with `[` after optional whitespace fails with `ExpectedOpeningBracket` |
| FixedShapeTensor.ArrayCommaMissing | src/fixed_shape_tensor.cpp:197-233 | an integer array whose first element is followed by anything but whitespace, `,` or `]` fails with `ExpectedCommaOrBracket` |
| FixedShapeTensor.MissingArrayCommaFails | src/fixed_shape_tensor.cpp:214-233 | a shape array whose first element is followed by anything but whitespace, `,` or `]` makes the reader fail with `ExpectedCommaOrBracket` |
| FixedShapeTensor.MissingCommaOrBraceFails | src/fixed_shape_tensor.cpp:331-347 | after a member, a character that is neither whitespace, `,` nor `}` fails with `ExpectedCommaOrBrace`, and the end of the text fails with `UnexpectedEnd` |
| FixedShapeTensor.LeadingWhitespaceSkipped | src/fixed_shape_tensor.cpp:285-290 | whitespace before the opening brace does not change what is read |
| FixedShapeTensor.WhitespaceBetweenTokens | src/fixed_shape_tensor.cpp:146-152 | a shape member with each of the six whitespace characters around its tokens is read as the shape `[2]` |
| ExtensionTags.MergeTags | src/fixed_shape_tensor.cpp:371-401 | the pairs keep their order and gain the name and parameter tags at the end unless the name tag is already present, in which case nothing changes |
| ExtensionTags.MergeTagsIdempotent | src/fixed_shape_tensor.cpp:382-399 | merging the tags a second time changes nothing, whatever parameters the second merge carries |
| ExtensionTags.FindNameTag | src/fixed_shape_tensor.cpp:382-391 | the search is true exactly when some pair has the name key and this type's name |
| ExtensionTags.FirstValue | src/fixed_shape_tensor.cpp:417-424 | the first value stored under a key is present exactly when the key occurs, and no earlier pair has that key |
| ExtensionTags.FindFirstValue | src/fixed_shape_tensor.cpp:417-424 | the loop with break returns the value of the first pair with the key |
| ExtensionTags.FirstValueAfterMerge | src/fixed_shape_tensor.cpp:393-399 | after the tags are merged into pairs that have neither tag, the parameter key's first value is the serialized parameters |
| ExtensionTags.FirstValueSkips | src/fixed_shape_tensor.cpp:417-424 | pairs without the key in front do not change its first value |
| FixedShapeTensor.Init | src/fixed_shape_tensor.cpp:363-402 | the result carries the name tag; existing pairs with the tag are kept as they are; otherwise the name tag and the to_json text are appended to the existing pairs, or to no pairs |
| FixedShapeTensor.InitTags | src/fixed_shape_tensor.cpp:363-402 | the imperative init computes exactly Init |
| FixedShapeTensor.InitIdempotent | src/fixed_shape_tensor.cpp:363-402 | running init again, with any valid parameters, leaves the pairs unchanged |
| FixedShapeTensor.ExtractMetadata | src/fixed_shape_tensor.cpp:404-432 | no pairs gives `MissingMetadata`; an absent or empty parameter value gives `MissingMetadataValue`; otherwise the reader's result, which is well formed when Ok |
| FixedShapeTensor.Extract | src/fixed_shape_tensor.cpp:404-432 | the imperative extract_metadata computes exactly ExtractMetadata |
| FixedShapeTensor.ExtractAfterInit | src/fixed_shape_tensor.cpp:363-432 | extract_metadata returns the parameters that init stored in pairs without either tag |
| FixedShapeTensorArray.Chunks | include/sparrow_extensions/fixed_shape_tensor.hpp:170-186 | the first n lists of a flat run cut into lists of k values: list i holds values i*k up to (i+1)*k |
| FixedShapeTensorArray.FlattenChunks | include/sparrow_extensions/fixed_shape_tensor.hpp:170-186 | laid end to end, the first n lists are the first n*k flat values |
| FixedShapeTensorArray.FixedShapeTensorArray.constructor | include/sparrow_extensions/fixed_shape_tensor.hpp:390-435 | under the documented preconditions the array holds the flat values, size() is their count over the list size, validity is the given bitmap or all present, the name is installed and the pairs are Init of the given pairs |
| FixedShapeTensorArray.FixedShapeTensorArray.FromProxy | src/fixed_shape_tensor.cpp:436-441 | an array wrapped from an existing field keeps its storage, name and pairs, and its parameters are those extract_metadata reads |
| FixedShapeTensorArray.FixedShapeTensorArray.Size | src/fixed_shape_tensor.cpp:463-466 | the tensor count is the number of validity flags, and times the list size it is the number of flat values |
| FixedShapeTensorArray.FixedShapeTensorArray.Shape | src/fixed_shape_tensor.cpp:473-476 | the shape of every tensor is non-empty and positive |
| FixedShapeTensorArray.FixedShapeTensorArray.Empty | include/sparrow_extensions/fixed_shape_tensor.hpp:307-312 | true exactly when size() is 0, which for a positive list size means no values at all |
| FixedShapeTensorArray.FixedShapeTensorArray.Get | src/fixed_shape_tensor.cpp:488-491 | tensor i is list i of the storage, null exactly when its validity flag is false |
| FixedShapeTensorArray.FixedShapeTensorArray.At | include/sparrow_extensions/fixed_shape_tensor.hpp:314-321 | fails with out_of_range exactly when i >= size(); otherwise gives operator[] |
| FixedShapeTensorArray.FixedShapeTensorArray.IsValid | include/sparrow_extensions/fixed_shape_tensor.hpp:323-328 | the parameters of every constructed array are valid |
| FixedShapeTensorArray.FixedShapeTensorArray.Elements | include/sparrow_extensions/fixed_shape_tensor.hpp:340-359 | forward iteration visits size() tensors, the i-th being operator[](i) |
| FixedShapeTensorArray.FixedShapeTensorArray.ReverseElements | include/sparrow_extensions/fixed_shape_tensor.hpp:360-378 | reverse iteration visits size() tensors, the k-th being operator[](size()-1-k) |
| FixedShapeTensorArray.FixedShapeTensorArray.ElementsCoverValues | include/sparrow_extensions/fixed_shape_tensor.hpp:170-186 | the tensors' values laid end to end in iteration order are exactly the flat values |
| VariableShapeTensor.GetNdim | src/variable_shape_tensor.cpp:49-64 | the dimension count is unknown exactly when all three fields are absent; otherwise it is the length of dim_names, else permutation, else uniform_shape |
| VariableShapeTensor.NdimOfValid | src/variable_shape_tensor.cpp:66-81 | for valid parameters every present field has get_ndim() entries |
| VariableShapeTensor.DefaultWellFormed | src/variable_shape_tensor.cpp:239-243 | default parameters are valid and fix no dimension count |
| VariableShapeTensor.IsValid | src/variable_shape_tensor.cpp:66-120 | returns true exactly when present fields agree in length, a present permutation is a non-empty permutation of 0..N-1 and fixed extents are positive |
| VariableShapeTensor.SeenCheck | src/variable_shape_tensor.cpp:92-102 | the seen-bitmap loop accepts exactly the permutations of 0..N-1 |
| VariableShapeTensor.AnyNonPositive | src/variable_shape_tensor.cpp:106-117 | finds a fixed extent that is not positive exactly when one exists |
| VariableShapeTensor.Members | src/variable_shape_tensor.cpp:175-231 | there are no members exactly when all three fields are absent |
| VariableShapeTensor.EncodeEmptyObject | src/variable_shape_tensor.cpp:124-128 | the text is `{}` exactly when all fields are absent, and never empty |
| VariableShapeTensor.WriteNames | src/variable_shape_tensor.cpp:159-193 | appends the names in quotes, comma-separated, between brackets |
| VariableShapeTensor.WriteInts | src/variable_shape_tensor.cpp:195-208 | appends the permutation, comma-separated, between brackets |
| VariableShapeTensor.WriteDims | src/variable_shape_tensor.cpp:210-230 | appends the uniform shape with `null` for free dimensions, comma-separated, between brackets |
| VariableShapeTensor.WriteKey | src/variable_shape_tensor.cpp:178-183 | appends a comma unless this is the first member, then the quoted key and a colon |
| VariableShapeTensor.MemberStep | src/variable_shape_tensor.cpp:176-231 | the first_field flag keeps the text equal to the brace and the members written so far, comma-joined |
| VariableShapeTensor.ToJson | src/variable_shape_tensor.cpp:122-234 | produces `{}` or the object with the present members in the order dim_names, permutation, uniform_shape (Encode) |
| VariableShapeTensor.FromJson | src/variable_shape_tensor.cpp:236-298 | the empty text and `{}` give defaults; otherwise the result is Ok exactly when the JSON library decodes the text to valid parameters, is `JsonParsing` when it fails, and anything returned is valid |
| VariableShapeTensor.RoundTrip | src/variable_shape_tensor.cpp:122-298 | reading back what to_json writes for valid parameters gives them back, given that the JSON library decodes the written fields |
| VariableShapeTensor.Init | src/variable_shape_tensor.cpp:300-336 | the result carries the name tag; existing tagged pairs are kept as they are; otherwise both tags are appended to the existing pairs, or to no pairs |
| VariableShapeTensor.InitTags | src/variable_shape_tensor.cpp:300-336 | the imperative init, with its early return, computes exactly Init |
| VariableShapeTensor.InitIdempotent | src/variable_shape_tensor.cpp:300-336 | running init again leaves the pairs unchanged |
| VariableShapeTensor.ExtractMetadata | src/variable_shape_tensor.cpp:338-354 | no pairs, or no parameter key, give the default parameters; otherwise from_json of the first parameter value; anything returned is valid |
| VariableShapeTensor.Extract | src/variable_shape_tensor.cpp:338-354 | the imperative extract_metadata computes exactly ExtractMetadata |
| VariableShapeTensor.ExtractAfterInit | src/variable_shape_tensor.cpp:300-354 | extract_metadata returns the parameters init stored in pairs without either tag |
| VariableShapeTensorArray.MakeTensorStruct | include/sparrow_extensions/variable_shape_tensor.hpp:498-517 | the struct has two children: the data array renamed `data`, then the shape array renamed `shape` |
| VariableShapeTensorArray.TensorStructShape | include/sparrow_extensions/variable_shape_tensor.hpp:498-517 | with as many shapes as data lists, both children have one entry per tensor and their names differ |
| VariableShapeTensorArray.VariableShapeTensorArray.constructor | include/sparrow_extensions/variable_shape_tensor.hpp:521-554 | under the documented preconditions the children are `data` and `shape` over the given arrays, validity is the given bitmap or all present, the name is installed and the pairs are Init of the given pairs |
| VariableShapeTensorArray.VariableShapeTensorArray.FromProxy | src/variable_shape_tensor.cpp:358-363 | an array wrapped from an existing field keeps its children, name and pairs, and its parameters are those extract_metadata reads |
| VariableShapeTensorArray.VariableShapeTensorArray.ValidateAndInit | src/variable_shape_tensor.cpp:426-453 | installs a given name and given pairs, then merges the tags into the pairs, leaving children, validity and parameters untouched |
| VariableShapeTensorArray.VariableShapeTensorArray.Size | src/variable_shape_tensor.cpp:391-394 | every child has size() entries |
| VariableShapeTensorArray.VariableShapeTensorArray.Ndim | src/variable_shape_tensor.cpp:401-404 | unknown exactly when no field fixes it; otherwise the length of every present field |
| VariableShapeTensorArray.VariableShapeTensorArray.Empty | include/sparrow_extensions/variable_shape_tensor.hpp:384-392 | true exactly when size() is 0, and then every child is empty |
| VariableShapeTensorArray.VariableShapeTensorArray.Get | include/sparrow_extensions/variable_shape_tensor.hpp:314-324 | row i has one cell per child, entry i of that child, and is null exactly when its validity flag is false |
| VariableShapeTensorArray.VariableShapeTensorArray.At | src/variable_shape_tensor.cpp:475-482 | fails with out_of_range exactly when i >= size(); otherwise gives operator[] |
| VariableShapeTensorArray.VariableShapeTensorArray.IsValid | src/variable_shape_tensor.cpp:484-487 | for an array with valid parameters, true exactly when there are two children |
| VariableShapeTensorArray.VariableShapeTensorArray.DataChild | src/variable_shape_tensor.cpp:455-463 | child 0, with one entry per tensor |
| VariableShapeTensorArray.VariableShapeTensorArray.ShapeChild | src/variable_shape_tensor.cpp:465-473 | child 1, with one entry per tensor |
| VariableShapeTensorArray.VariableShapeTensorArray.Names | include/sparrow_extensions/variable_shape_tensor.hpp:364-373 | one name per child, in child order |
| VariableShapeTensorArray.VariableShapeTensorArray.Elements | include/sparrow_extensions/variable_shape_tensor.hpp:431-459 | forward iteration visits size() tensors, the i-th being operator[](i) |
| VariableShapeTensorArray.VariableShapeTensorArray.ReverseElements | include/sparrow_extensions/variable_shape_tensor.hpp:461-483 | reverse iteration visits size() tensors, the k-th being operator[](size()-1-k) |

## Left out

- The array registry entries (src/fixed_shape_tensor.cpp:507-525 and src/variable_shape_tensor.cpp:493-511) are not modelled. They are global registration with sparrow's factory.
- Copy and move constructors, `get_arrow_proxy`, `storage()` and `get_metadata()` are plain accessors of the wrapped sparrow array and are not modelled. The model's fields stand for them.
- Text is `seq<char>`. The source scans the bytes of a `std::string` with `std::isspace` and `std::isdigit`; the model's `IsSpace` and `IsDigit` take the C-locale classes of those functions. For valid UTF-8 the two agree, since no byte of a multi-byte character is an ASCII space or digit.
- The element values are an abstract type `T`. Sparrow's value types, list and struct views, and Arrow's C data layout (buffers, offsets, the validity bitmap's bit packing) are not modelled.
- Iterators are modelled as the sequence of elements they visit (`Elements`, `ReverseElements`). The iterator types themselves and their arithmetic are not modelled.
- VariableShapeTensor.FromJson: the simdjson library is not modelled. What it decodes from the text is the parameter `decoded`. An error from it becomes `JsonParsing`. The `static_cast<std::int32_t>` of uniform_shape extents therefore lies inside `decoded` and is not modelled. The checks the code itself makes are modelled: the `""`/`{}` shortcut and validation.
- VariableShapeTensor.RoundTrip: the round trip is proved given that the JSON library decodes the written text to the same parameters. The library itself is not verified. That assumption does not hold for every input: like the fixed-shape writer, the variable-shape `to_json` writes dimension names without escaping (src/variable_shape_tensor.cpp:184-191), so a name containing `"`, `\` or a control character gives text the library rejects or reads back differently.
- VariableShapeTensor.ExtractAfterInit: conditional on the JSON library in the same way as RoundTrip.
- FixedShapeTensor.RoundTrip: proved for dimension names without double quotes. The writer does not escape them and the reader stops at the first quote, so a name containing `"` does not survive the round trip.
- FixedShapeTensor.ComputeSizeAppend: the element count is an unbounded product. The 64-bit overflow of `std::accumulate` over `int64_t` (undefined behaviour) is not modelled.
- JsonScanner.Cursor.ReadInt: `std::stoll`'s two exceptions (invalid_argument, out_of_range) are one error, `InvalidInteger`. The scanner's `runtime_error` messages are the constructors of `ScanError`.
- The `reserve` size estimates in the variable-shape `to_json` (src/variable_shape_tensor.cpp:129-157) only affect allocation and are not modelled.
- FixedShapeTensorArray.FixedShapeTensorArray.constructor: the four declared constructors are modelled as one, with optional validity, name and pairs. The header's `finalize_construction` and the out-of-line `empty`, `at` and `is_valid` have no definition among the source files. They are modelled from their documentation, and `finalize_construction` is taken to run `init` as the cpp constructor at src/fixed_shape_tensor.cpp:443-461 does.
- FixedShapeTensorArray.FixedShapeTensorArray.constructor: the cpp constructor with a `bool nullable` parameter matches no declaration in the header. It is covered by the modelled constructor with no validity bitmap (all tensors present).
- FixedShapeTensorArray.FixedShapeTensorArray.constructor: `listSize > 0` is stated in the requires. It already follows from `listSize == ComputeSize(shape)` for valid parameters (FixedShapeTensor.ComputeSizePositive).
- VariableShapeTensorArray.VariableShapeTensorArray.constructor: "data and shapes have equal length" and "every shape list has ndim extents" are documented preconditions that the code never checks. They are `requires` here, as are validity of the parameters and agreement of ndim with get_ndim(), which the code asserts.
- VariableShapeTensorArray.VariableShapeTensorArray.IsValid: stated for arrays with valid parameters (the class invariant), where `m_metadata.is_valid()` always holds. The function itself still checks both conjuncts.
- SPARROW_ASSERT_TRUE failures are modelled as `requires`. Thrown exceptions are `Err` results. The two constructors from an existing field (`FixedShapeTensorArray.FixedShapeTensorArray.FromProxy`, `VariableShapeTensorArray.VariableShapeTensorArray.FromProxy`) are the exception: `extract_metadata` can throw there, and the model takes the headers' documented precondition that the field carries valid extension metadata as a `requires` instead.
