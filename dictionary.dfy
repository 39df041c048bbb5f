/**
  The value types the variable serialiser stores: CNTK's Dictionary, a map from
  wide-string keys to DictionaryValue, where a DictionaryValue is a tagged union
  over the library's value types. The library's own Dictionary and DictionaryValue
  classes are not part of this model; only the behaviour the serialiser relies on
  is: storing a value under a key, and reading a key back as one expected type.
 */
module Dictionaries {
  import opened Errors

  /** A dynamic axis of a variable. A default-constructed Axis is distinguished
      from the named axes a variable is actually built with. */
  datatype Axis = DefaultAxis | NamedAxis(name: string)

  /** The dimensions of a tensor. */
  type NDShape = seq<nat>

  /** A tensor value held by a Parameter or Constant; its contents are opaque
      to the serialiser, which only stores and returns it. */
  datatype NDArrayView = NDArrayView(shape: NDShape, elements: seq<real>)

  /** A size_t: 64 bits wide. */
  type SizeT = n: nat | n < 0x1_0000_0000_0000_0000

  /** One DictionaryValue. NoValue is what the default constructor produces. */
  datatype DictionaryValue =
    | NoValue
    | BoolValue(b: bool)
    | SizeTValue(n: SizeT)
    | StringValue(s: string)
    | AxisValue(axis: Axis)
    | ShapeValue(shape: NDShape)
    | VectorValue(items: seq<DictionaryValue>)
    | ArrayViewValue(view: NDArrayView)

  type Dictionary = map<string, DictionaryValue>

  // Typed reads, `dict[key].Value<T>()`: an absent key and a value of another
  // type are both failures.

  function GetString(d: Dictionary, key: string): (r: Result<string>)
    ensures r.Success? <==> key in d && d[key].StringValue?
    ensures r.Success? ==> d[key] == StringValue(r.value)
    ensures key !in d ==> r == Failure(MissingKey(key))
  {
    if key !in d then Failure(MissingKey(key))
    else if d[key].StringValue? then Success(d[key].s)
    else Failure(WrongValueType(key))
  }

  function GetSizeT(d: Dictionary, key: string): (r: Result<SizeT>)
    ensures r.Success? <==> key in d && d[key].SizeTValue?
    ensures r.Success? ==> d[key] == SizeTValue(r.value)
    ensures key !in d ==> r == Failure(MissingKey(key))
  {
    if key !in d then Failure(MissingKey(key))
    else if d[key].SizeTValue? then Success(d[key].n)
    else Failure(WrongValueType(key))
  }

  function GetBool(d: Dictionary, key: string): (r: Result<bool>)
    ensures r.Success? <==> key in d && d[key].BoolValue?
    ensures r.Success? ==> d[key] == BoolValue(r.value)
    ensures key !in d ==> r == Failure(MissingKey(key))
  {
    if key !in d then Failure(MissingKey(key))
    else if d[key].BoolValue? then Success(d[key].b)
    else Failure(WrongValueType(key))
  }

  function GetShape(d: Dictionary, key: string): (r: Result<NDShape>)
    ensures r.Success? <==> key in d && d[key].ShapeValue?
    ensures r.Success? ==> d[key] == ShapeValue(r.value)
    ensures key !in d ==> r == Failure(MissingKey(key))
  {
    if key !in d then Failure(MissingKey(key))
    else if d[key].ShapeValue? then Success(d[key].shape)
    else Failure(WrongValueType(key))
  }

  function GetVector(d: Dictionary, key: string): (r: Result<seq<DictionaryValue>>)
    ensures r.Success? <==> key in d && d[key].VectorValue?
    ensures r.Success? ==> d[key] == VectorValue(r.value)
    ensures key !in d ==> r == Failure(MissingKey(key))
  {
    if key !in d then Failure(MissingKey(key))
    else if d[key].VectorValue? then Success(d[key].items)
    else Failure(WrongValueType(key))
  }

  function GetArrayView(d: Dictionary, key: string): (r: Result<NDArrayView>)
    ensures r.Success? <==> key in d && d[key].ArrayViewValue?
    ensures r.Success? ==> d[key] == ArrayViewValue(r.value)
    ensures key !in d ==> r == Failure(MissingKey(key))
  {
    if key !in d then Failure(MissingKey(key))
    else if d[key].ArrayViewValue? then Success(d[key].view)
    else Failure(WrongValueType(key))
  }
}
