# CNTK variable serialisation, modelled in Dafny

This project models how CNTK's v2 library persists the metadata of a graph
variable (`Variable::Save` and `Variable::Load` in
`Source/CNTKv2LibraryDll/Variable.cpp`), and the data-type dispatch of the two
random-initialisation factories of `Parameter` in the same file.

- `errors.dfy` (module `Errors`): the failures the code raises (`LogicError`,
  `InvalidArgument`, and the exceptions of dictionary lookups) as the `Failure`
  case of a `Result`.
- `dictionary.dfy` (module `Dictionaries`): a `Dictionary` is a
  `map<string, DictionaryValue>`; a `DictionaryValue` is a tagged union (no
  value, bool, size_t, string, axis, shape, vector of values, tensor). Reading
  `dict[key].Value<T>()` fails on an absent key and on a value of another type.
- `variable.dfy` (module `Variables`): variable kinds and data types with their
  numeric codes, the variable record (`Variable`: exactly Parameters and
  Constants hold a value), the specification functions `Saved` and `Loaded`, and
  the imperative `Save` and `Load`, which build the dictionary entry by entry and
  the dynamic-axis vectors with `push_back` loops, each proved equal to its
  specification function. Lemmas relate saving and loading.
- `parameters.dfy` (module `Parameters`): `UniformInitParameter` and
  `NormalInitParameter` accept only `Float` and `Double`, and record which
  random fill they request.

Both the saved and the loaded dynamic-axis vectors are created with their final
count of default entries and then have the axes appended (see Findings). The
model keeps this behaviour, so the save/load round trip is proved only for
variables without dynamic axes. For variables with dynamic axes, the model
proves that loading what was saved fails.

## Model

| member | source | states |
|---|---|---|
| `Dictionaries.GetString` | Source/CNTKv2LibraryDll/Variable.cpp:101 | Reading a key as a string succeeds exactly when the key is present and holds a string, and returns that string; an absent key is a MissingKey failure |
| `Dictionaries.GetSizeT` | Source/CNTKv2LibraryDll/Variable.cpp:110 | Reading a key as a size_t succeeds exactly when the key holds a size_t, and returns it |
| `Dictionaries.GetBool` | Source/CNTKv2LibraryDll/Variable.cpp:136 | Reading a key as a bool succeeds exactly when the key holds a bool, and returns it |
| `Dictionaries.GetShape` | Source/CNTKv2LibraryDll/Variable.cpp:139 | Reading a key as a shape succeeds exactly when the key holds a shape, and returns it |
| `Dictionaries.GetVector` | Source/CNTKv2LibraryDll/Variable.cpp:129 | Reading a key as a vector of values succeeds exactly when the key holds one, and returns its items |
| `Dictionaries.GetArrayView` | Source/CNTKv2LibraryDll/Variable.cpp:143 | Reading a key as a tensor succeeds exactly when the key holds one, and returns it |
| `Variables.Narrowed` | Source/CNTKv2LibraryDll/Variable.cpp:110 | Converting a size_t code to an enumeration gives a value below 2^32, and leaves a code below 2^32 unchanged |
| `Variables.NarrowedWraps` | Source/CNTKv2LibraryDll/Variable.cpp:110-120 | For every code, the conversion keeps the low 32 bits: q·2^32 + c narrows to c for every q and every c below 2^32 |
| `Variables.KindCode` | Source/CNTKv2LibraryDll/Variable.cpp:74 | The code saved for a kind is an enumerator value below 2^31, so narrowing it back does not change it |
| `Variables.KindOfCode` | Source/CNTKv2LibraryDll/Variable.cpp:110 | Converting a saved code to a kind gives the kind whose code equals the narrowed code, and no kind when no kind has that narrowed code |
| `Variables.KindCodeRoundTrip` | Source/CNTKv2LibraryDll/Variable.cpp:74-110 | Converting the saved code of a kind back gives that kind |
| `Variables.DataTypeCode` | Source/CNTKv2LibraryDll/Variable.cpp:75 | The code saved for a data type is an enumerator value below 2^31, so narrowing it back does not change it |
| `Variables.DataTypeOfCode` | Source/CNTKv2LibraryDll/Variable.cpp:120 | Converting a saved code to a data type gives the data type whose code equals the narrowed code, and none when the narrowed value lies beyond every enumerator |
| `Variables.DataTypeCodeRoundTrip` | Source/CNTKv2LibraryDll/Variable.cpp:75-120 | Converting the saved code of a data type back gives that data type |
| `Variables.SavedAxisList` | Source/CNTKv2LibraryDll/Variable.cpp:76-82 | The saved dynamic-axis vector has 2·n entries for n axes: n default entries, then the axes in their original order |
| `Variables.AxesOf` | Source/CNTKv2LibraryDll/Variable.cpp:131-134 | Reading every entry as an Axis succeeds exactly when every entry holds an axis, and the axes read are exactly the entries' axes in order |
| `Variables.LoadedAxes` | Source/CNTKv2LibraryDll/Variable.cpp:129-134 | Load's axis vector exists exactly when every entry holds an axis; it then has 2·m axes, m default ones followed by the entries' axes in order; otherwise the failure is a wrong-type read of the dynamic-axis key |
| `Variables.ReadDynamicAxes` | Source/CNTKv2LibraryDll/Variable.cpp:129-134 | The push_back loop computes exactly LoadedAxes of the entries, including its failure |
| `Variables.Saved` | Source/CNTKv2LibraryDll/Variable.cpp:63-93 | Save fails exactly for an Output variable; otherwise the keys are the required ones plus the model version, plus the value key exactly for a Parameter or Constant; each entry holds the variable's field ("Variable" under type, the kind and data-type codes, the axis vector, uid, name, flags, shape, value) |
| `Variables.Save` | Source/CNTKv2LibraryDll/Variable.cpp:63-93 | Filling the dictionary entry by entry and the axis vector by a loop produces exactly Saved |
| `Variables.ValidateModelDictionary` | Source/CNTKv2LibraryDll/Variable.cpp:97-99 | Validation succeeds exactly when every required key is present, and otherwise names the missing keys |
| `Variables.LoadableKind` | Source/CNTKv2LibraryDll/Variable.cpp:110-118 | The kind check passes exactly when the narrowed code names a kind other than Output, and returns that kind; otherwise it fails with the code as read |
| `Variables.LoadableDataType` | Source/CNTKv2LibraryDll/Variable.cpp:120-127 | The data-type check passes exactly when the narrowed code is that of Unknown, Float or Double, and returns that data type; otherwise it fails with the code as read |
| `Variables.LoadNarrowsCodes` | Source/CNTKv2LibraryDll/Variable.cpp:110-127 | For every multiple q of 2^32, the code q·2^32 plus a kind's code passes the kind check as that kind exactly when the kind is not Output; likewise for data types, which pass as themselves exactly when they are Unknown, Float or Double |
| `Variables.CheckHeader` | Source/CNTKv2LibraryDll/Variable.cpp:97-127 | The header checks pass exactly when the required keys are present, the type is "Variable", the uid is a string, and the kind and data-type codes are size_t values that pass their checks; on success uid, kind and data type come from the dictionary; a wrong type, then a bad kind, then a bad data type each fail with their own error, in that order |
| `Variables.ReadAttributes` | Source/CNTKv2LibraryDll/Variable.cpp:136-139 | The reads succeed exactly when isSparse and needsGradient hold bools, name a string and shape a shape, and return those entries |
| `Variables.Assemble` | Source/CNTKv2LibraryDll/Variable.cpp:141-155 | The selection succeeds unless a Parameter or Constant lacks a tensor under the value key; the variable takes every field from the header, attributes and axes; a Parameter comes back for kind Parameter, a Constant for kind Constant, a plain variable otherwise; a held value is the stored tensor |
| `Variables.Loaded` | Source/CNTKv2LibraryDll/Variable.cpp:95-156 | On success the type entry is "Variable", the kind is not Output, the data type is Unknown, Float or Double, uid, flags, name and shape come from the dictionary, and kind and data type are those of the narrowed codes; a Parameter comes back for kind Parameter, a Constant for kind Constant, and a plain variable with no value otherwise; a held value is the stored one; the axes are m defaults followed by the stored axes |
| `Variables.Load` | Source/CNTKv2LibraryDll/Variable.cpp:95-156 | Loading with the axis loop produces exactly Loaded |
| `Variables.LoadSucceedsExactlyWhenLoadable` | Source/CNTKv2LibraryDll/Variable.cpp:97-143 | Load succeeds if and only if all of its checks pass: required keys present, "Variable" type, entries of the right types, a loadable kind and data type, axis-only entries, and a tensor value for a Parameter or Constant |
| `Variables.LoadRejectsForeignType` | Source/CNTKv2LibraryDll/Variable.cpp:101-106 | A type entry other than "Variable" makes Load fail with that unexpected type |
| `Variables.LoadRejectsKind` | Source/CNTKv2LibraryDll/Variable.cpp:110-118 | A kind code whose narrowed value is Output's, or beyond the last kind, makes Load fail with that kind code |
| `Variables.LoadRejectsDataType` | Source/CNTKv2LibraryDll/Variable.cpp:120-127 | A data-type code whose narrowed value lies beyond Double makes Load fail with that data-type code |
| `Variables.LoadRequiresValueForParameterAndConstant` | Source/CNTKv2LibraryDll/Variable.cpp:141-152 | A loadable Parameter or Constant dictionary has a value entry, and the loaded variable holds exactly that value |
| `Variables.LoadSaveRoundTrip` | Source/CNTKv2LibraryDll/Variable.cpp:63-156 | A non-Output variable with no dynamic axes and a loadable data type is saved and loaded back unchanged, as a Parameter, Constant or plain variable by its kind |
| `Variables.SaveLoadRejectsUnlistedDataType` | Source/CNTKv2LibraryDll/Variable.cpp:71-127 | Save accepts any data type, but Load rejects a saved data type beyond Double |
| `Variables.SaveLoadFailsWithDynamicAxes` | Source/CNTKv2LibraryDll/Variable.cpp:76-134 | Loading a saved variable that has dynamic axes always fails |
| `Variables.SavedAxisListUnreadable` | Source/CNTKv2LibraryDll/Variable.cpp:77-81 | A non-empty saved axis vector cannot be read back as axes |
| `Variables.LoadedAxesDoubled` | Source/CNTKv2LibraryDll/Variable.cpp:130-134 | A one-axis vector loads as two axes, a default one and then the stored one |
| `Variables.IntendedAxisList` | Source/CNTKv2LibraryDll/Variable.cpp:77-81 | The intended saved axis vector has one entry per axis, holding that axis, in order |
| `Variables.IntendedAxes` | Source/CNTKv2LibraryDll/Variable.cpp:130-134 | The intended loaded axes exist exactly when every entry holds an axis, and are those axes, one per entry |
| `Variables.IntendedAxisRoundTrip` | Source/CNTKv2LibraryDll/Variable.cpp:76-134 | Loading the intended axis vector of any axes gives those axes back |
| `Variables.IntendedSaved` | Source/CNTKv2LibraryDll/Variable.cpp:63-93 | The intended Save fails exactly for Output, and writes the same keys and entries as Save except that the dynamic-axis entry holds exactly the axes |
| `Variables.IntendedLoaded` | Source/CNTKv2LibraryDll/Variable.cpp:95-156 | On success the intended Load's dynamic axes are exactly the axes stored in the dictionary, one per entry |
| `Variables.IntendedRoundTrip` | Source/CNTKv2LibraryDll/Variable.cpp:63-156 | With the intended vectors, every non-Output variable with a loadable data type, dynamic axes included, is saved and loaded back unchanged and correctly wrapped |
| `Parameters.ElementTypeFor` | Source/CNTKv2LibraryDll/Variable.cpp:37-45 | The dispatch succeeds exactly for Float and Double, choosing the element type of that data type; any other data type is an unsupported-data-type failure |
| `Parameters.UniformInitParameter` | Source/CNTKv2LibraryDll/Variable.cpp:35-46 | Succeeds exactly for Float and Double, requesting a uniform fill over [-range, range] of that element type, shape and seed, under the given name; otherwise an unsupported-data-type failure |
| `Parameters.NormalInitParameter` | Source/CNTKv2LibraryDll/Variable.cpp:48-59 | Succeeds exactly for Float and Double, requesting a normal fill with mean 0 and the given deviation, of that element type, shape and seed, under the given name; otherwise an unsupported-data-type failure |
| `Parameters.InitDataTypesAreLoadable` | Source/CNTKv2LibraryDll/Variable.cpp:37-58 | Both factories accept the same data types, and each of them passes Load's data-type check |

## Left out

- `Source/Math/GPUDataTransferer.h` is not part of this model: it only declares asynchronous host/device copies on CUDA streams and events, with process-wide shared streams. It has no bodies, and its behaviour is concurrency over a foreign API.
- `Variable::Owner`, `operator FunctionPtr` and the `Variable(const FunctionPtr&)` constructor (Variable.cpp:13-33) are not modelled. They are graph plumbing through functions not shown. The owner function, which Load always passes as null, is not a field of the model.
- `Variables.ValidateModelDictionary`: models only the required-key check. The model-version comparison done inside the library's validation is not part of this model. The version Load reads is used only for error messages, which are not modelled.
- `Variables.Loaded`: error messages and version strings are not modelled. Only the kind of failure and its offending key or code are kept.
- Codes: the kind codes follow the enumeration order Input, Output, Parameter, Constant, Placeholder. The data-type codes are Unknown 0, Float 1 and Double 2. Any further data type is `Unlisted`, numbered after Double and below 2^31. The enumerations and the key strings are defined in headers that are not part of this model. Most properties depend only on the codes being distinct. `LoadRejectsKind`, `LoadRejectsDataType`, `LoadableDataType` and `Loadable` also depend on Placeholder having the largest kind code, and on Double having the largest code Load accepts.
- `Variables.Narrowed`: assumes that both enumerations have a 32-bit unsigned underlying type. Their declarations are not part of this model. Converting a size_t to such a type keeps the low 32 bits, and C++ defines that conversion for unsigned targets. A signed underlying type would keep the same bits but read a value of 2^31 or more as negative; either way no enumerator matches.
- `Variables.KindOfCode`, `Variables.DataTypeOfCode`, `Variables.LoadableKind`, `Variables.LoadableDataType`: follow that narrowing. A code of 2^32 and above is accepted when its low 32 bits name a loadable kind or data type. A narrowed value of 2^31 and above names no enumerator and is rejected.
- `ModelVersion`: the current version's actual value is defined outside this file. The model uses a placeholder, and no property depends on it.
- `size_t` entries are naturals below 2^64 (`SizeT`).
- `Variables.Loaded`: the ten-argument `Variable` constructor (Variable.cpp:144, :155) and the `Parameter(var)` / `Constant(var)` conversions (:147, :151) are not part of this model. They are assumed to store their arguments unchecked. `LoadSucceedsExactlyWhenLoadable`, `LoadSaveRoundTrip`, `IntendedRoundTrip` and the second Findings row rely on this. A constructor that rejected repeated dynamic axes, or a conversion that rejected a tensor whose element type differs from the data type, would turn some of those successes into failures.
- The random fill (`NDArrayView::RandomUniform` / `RandomNormal`), the device descriptor and floating-point ranges are not modelled. The factories return a description of the requested fill (element type, distribution parameters as `real`, shape, seed) rather than a constructed Parameter. How `Parameter(view, name)` builds a variable from a tensor is not part of this model.
- `Axis` and `NDArrayView` are opaque to the serialiser. `Axis` only distinguishes a default-constructed axis from named ones. A tensor is a shape with real elements, and it is stored and returned unchanged.
- `Variables.Loaded`: Load builds the Parameter or Constant from `value.Alias()`, so the loaded variable shares storage with the tensor in the dictionary. Likewise, Save stores a `DictionaryValue` built from the variable's tensor. The model treats tensors as values, so it cannot express this aliasing: a later write through one of them changing the other.

## Findings

| source | as written | input that shows it | evidently intended | confidence | as-written member | corrected member |
|---|---|---|---|---|---|---|
| Source/CNTKv2LibraryDll/Variable.cpp:77-81 | `vector<DictionaryValue>(n)` creates n empty values, and the loop then appends the n axes, so the saved vector has 2·n entries beginning with empty values | a variable with one dynamic axis `a`: the saved vector is `[NoValue, AxisValue(a)]`, and Load fails when it reads the first entry as an Axis | reserve space only; save exactly the n axes in order | high; not executed | `Variables.SaveLoadFailsWithDynamicAxes` | `Variables.IntendedSaved` |
| Source/CNTKv2LibraryDll/Variable.cpp:130-134 | `vector<Axis>(m)` creates m default axes, and the loop then appends the m read axes, so the loaded variable has 2·m dynamic axes | the vector `[AxisValue(a)]` loads as `[DefaultAxis, a]` | reserve space only; load exactly the m stored axes | high; not executed | `Variables.LoadedAxesDoubled` | `Variables.IntendedLoaded` |

The corrected pair `IntendedSaved` / `IntendedLoaded` uses `IntendedAxisList` / `IntendedAxes` for the dynamic-axis vectors. `Variables.IntendedRoundTrip` proves that it returns every savable variable with a loadable data type, dynamic axes included. `Save` and `Load` keep the behaviour as written.
