/**
  Saving a variable's metadata to a Dictionary and loading it back
  (Variable::Save and Variable::Load in Variable.cpp).
 */
module Variables {
  import opened Errors
  import opened Dictionaries

  // ---------------------------------------------------------------------------
  // Kinds, data types and variables
  // ---------------------------------------------------------------------------

  datatype VariableKind = Input | Output | Parameter | Constant | Placeholder {
    /** Parameters and Constants are the kinds that carry a tensor value. */
    predicate HoldsValue() {
      Parameter? || Constant?
    }
  }

  /** An enumeration value occupies 32 bits. Every enumerator lies below 2^31,
      so it is the same number whether the underlying type is signed or not. */
  const EnumValueRange: nat := 0x1_0000_0000
  const EnumeratorBound: nat := 0x8000_0000

  /** The conversion of a saved size_t code back to an enumeration
      (`VariableKind(n)`, `DataType(n)`): the code is narrowed to the
      enumeration's 32-bit underlying type, which keeps its low 32 bits. */
  function Narrowed(code: nat): (r: nat)
    ensures r < EnumValueRange
    ensures code < EnumValueRange ==> r == code
  {
    code % EnumValueRange
  }

  /** Narrowing keeps the low 32 bits of every code: adding any multiple of
      2^32 to a 32-bit value does not change what it narrows to. */
  lemma NarrowedWraps(q: nat, c: nat)
    requires c < EnumValueRange
    ensures Narrowed(q * EnumValueRange + c) == c
  {
  }

  /** The numeric code a kind is saved as: its position in the enumeration.
      It is an enumerator value, so narrowing it back leaves it unchanged. */
  function KindCode(k: VariableKind): (r: nat)
    ensures r < EnumeratorBound
  {
    match k
    case Input => 0
    case Output => 1
    case Parameter => 2
    case Constant => 3
    case Placeholder => 4
  }

  /** `VariableKind(n)`: the named kind whose code is n narrowed to 32 bits, if there is one. */
  function KindOfCode(n: nat): (r: Option<VariableKind>)
    ensures r.Some? ==> KindCode(r.value) == Narrowed(n)
    ensures r.None? ==> forall k :: KindCode(k) != Narrowed(n)
  {
    var value := Narrowed(n);
    if value == 0 then Some(Input)
    else if value == 1 then Some(Output)
    else if value == 2 then Some(Parameter)
    else if value == 3 then Some(Constant)
    else if value == 4 then Some(Placeholder)
    else None
  }

  lemma KindCodeRoundTrip(k: VariableKind)
    ensures KindOfCode(KindCode(k)) == Some(k)
  {
  }

  /** Element data types. Unlisted(i) stands for the i-th enumerator after Double,
      a data type that exists in the library but that Load does not accept. */
  datatype DataType = Unknown | Float | Double | Unlisted(ordinal: UnlistedOrdinal)

  /** Unlisted enumerators, like all others, lie below 2^31. */
  type UnlistedOrdinal = i: nat | i < EnumeratorBound - 3

  /** The numeric code a data type is saved as; narrowing it back leaves it unchanged. */
  function DataTypeCode(t: DataType): (r: nat)
    ensures r < EnumeratorBound
  {
    match t
    case Unknown => 0
    case Float => 1
    case Double => 2
    case Unlisted(i) => 3 + i
  }

  /** `DataType(n)`: the data type whose code is n narrowed to 32 bits; none
      when the narrowed value lies beyond every enumerator. */
  function DataTypeOfCode(n: nat): (r: Option<DataType>)
    ensures r.Some? ==> DataTypeCode(r.value) == Narrowed(n)
    ensures r.None? ==> forall t :: DataTypeCode(t) != Narrowed(n)
  {
    var value := Narrowed(n);
    if value == 0 then Some(Unknown)
    else if value == 1 then Some(Float)
    else if value == 2 then Some(Double)
    else if value < EnumeratorBound then Some(Unlisted(value - 3))
    else None
  }

  lemma DataTypeCodeRoundTrip(t: DataType)
    ensures DataTypeOfCode(DataTypeCode(t)) == Some(t)
  {
  }

  /** The fields a variable is built from, in the order of the library's
      constructor (the owner function is not modelled). */
  datatype VariableFields = VariableFields(
    shape: NDShape,
    kind: VariableKind,
    dataType: DataType,
    value: Option<NDArrayView>,
    needsGradient: bool,
    dynamicAxes: seq<Axis>,
    isSparse: bool,
    name: string,
    uid: string)

  /** A variable as the library builds it: exactly Parameters and Constants hold a value. */
  type Variable = f: VariableFields | f.kind.HoldsValue() <==> f.value.Some?
    witness VariableFields([], Input, Unknown, None, false, [], false, "", "")

  // ---------------------------------------------------------------------------
  // Dictionary keys
  // ---------------------------------------------------------------------------

  const ModelVersionKey := "version"
  const TypeKey := "type"
  const UidKey := "uid"
  const KindKey := "kind"
  const DataTypeKey := "data_type"
  const DynamicAxisKey := "dynamic_axis"
  const IsSparseKey := "is_sparse"
  const NameKey := "name"
  const NeedsGradientKey := "needs_gradient"
  const ShapeKey := "shape"
  const ValueKey := "value"

  /** The value of the 'type' entry of every saved variable. */
  const TypeValue := "Variable"

  /** The current model version, written under ModelVersionKey; no property here depends on its value. */
  const ModelVersion: nat := 1

  /** The keys Load requires before it reads anything. */
  const RequiredKeys: set<string> :=
    {TypeKey, UidKey, KindKey, DataTypeKey, DynamicAxisKey, IsSparseKey, NameKey, NeedsGradientKey, ShapeKey}

  // ---------------------------------------------------------------------------
  // The dynamic-axis entry
  // ---------------------------------------------------------------------------

  function NoValues(n: nat): seq<DictionaryValue> {
    seq(n, _ => NoValue)
  }

  function DefaultAxes(n: nat): seq<Axis> {
    seq(n, _ => DefaultAxis)
  }

  /** One AxisValue entry per axis, in order. */
  function AxisEntries(axes: seq<Axis>): seq<DictionaryValue> {
    seq(|axes|, i requires 0 <= i < |axes| => AxisValue(axes[i]))
  }

  lemma AxisEntriesInjective(xs: seq<Axis>, ys: seq<Axis>)
    requires AxisEntries(xs) == AxisEntries(ys)
    ensures xs == ys
  {
    assert |xs| == |AxisEntries(xs)| == |ys|;
    forall i | 0 <= i < |xs| ensures xs[i] == ys[i] {
      assert AxisEntries(xs)[i] == AxisEntries(ys)[i];
    }
  }

  /** The dynamic-axis entry Save writes: the vector is created holding n
      default values and the n axes are then appended after them. */
  function SavedAxisList(axes: seq<Axis>): (r: seq<DictionaryValue>)
    ensures |r| == 2 * |axes|
    ensures forall i :: 0 <= i < |axes| ==> r[i] == NoValue
    ensures forall j :: |axes| <= j < |r| ==> r[j] == AxisValue(axes[j - |axes|])
  {
    NoValues(|axes|) + AxisEntries(axes)
  }

  /** Reads every entry as an Axis; None as soon as one entry holds something else. */
  function AxesOf(entries: seq<DictionaryValue>): (r: Option<seq<Axis>>)
    ensures r.Some? <==> forall i :: 0 <= i < |entries| ==> entries[i].AxisValue?
    ensures r.Some? ==> AxisEntries(r.value) == entries
  {
    if entries == [] then Some([])
    else if !entries[0].AxisValue? then None
    else
      match AxesOf(entries[1..])
      case None => None
      case Some(rest) =>
        assert AxisEntries([entries[0].axis] + rest) == [entries[0]] + entries[1..];
        Some([entries[0].axis] + rest)
  }

  /** The axes Load builds from a dynamic-axis entry of m items: the vector is
      created holding m default axes and each item, read as an Axis, is
      appended after them. */
  function LoadedAxes(entries: seq<DictionaryValue>): (r: Result<seq<Axis>>)
    ensures r.Success? <==> forall i :: 0 <= i < |entries| ==> entries[i].AxisValue?
    ensures r.Failure? ==> r.error == WrongValueType(DynamicAxisKey)
    ensures r.Success? ==>
              && |r.value| == 2 * |entries|
              && r.value[..|entries|] == DefaultAxes(|entries|)
              && AxisEntries(r.value[|entries|..]) == entries
  {
    match AxesOf(entries)
    case None => Failure(WrongValueType(DynamicAxisKey))
    case Some(axes) =>
      assert (DefaultAxes(|entries|) + axes)[|entries|..] == axes;
      Success(DefaultAxes(|entries|) + axes)
  }

  /** The loop of Load that fills the dynamic axes, push_back by push_back. */
  method ReadDynamicAxes(entries: seq<DictionaryValue>) returns (r: Result<seq<Axis>>)
    ensures r == LoadedAxes(entries)
  {
    var m := |entries|;
    var axes := DefaultAxes(m);
    for i := 0 to m
      invariant forall j :: 0 <= j < i ==> entries[j].AxisValue?
      invariant |axes| == m + i && axes[..m] == DefaultAxes(m)
      invariant AxisEntries(axes[m..]) == entries[..i]
    {
      if !entries[i].AxisValue? {
        return Failure(WrongValueType(DynamicAxisKey));
      }
      assert (axes + [entries[i].axis])[m..] == axes[m..] + [entries[i].axis];
      assert entries[..i + 1] == entries[..i] + [entries[i]];
      axes := axes + [entries[i].axis];
    }
    assert entries[..m] == entries;
    var expected := LoadedAxes(entries).value;
    AxisEntriesInjective(axes[m..], expected[m..]);
    assert axes == axes[..m] + axes[m..] && expected == expected[..m] + expected[m..];
    return Success(axes);
  }

  // ---------------------------------------------------------------------------
  // Save
  // ---------------------------------------------------------------------------

  /** The dictionary Save produces for a variable, or the failure it raises. */
  function Saved(v: Variable): (r: Result<Dictionary>)
    ensures r.Failure? <==> v.kind == Output
    ensures r.Failure? ==> r.error == OutputNotSaveable
    ensures r.Success? ==>
              && r.value.Keys == RequiredKeys + {ModelVersionKey} + (if v.kind.HoldsValue() then {ValueKey} else {})
              && r.value[ModelVersionKey] == SizeTValue(ModelVersion)
              && r.value[TypeKey] == StringValue(TypeValue)
              && r.value[UidKey] == StringValue(v.uid)
              && r.value[KindKey] == SizeTValue(KindCode(v.kind))
              && r.value[DataTypeKey] == SizeTValue(DataTypeCode(v.dataType))
              && r.value[DynamicAxisKey] == VectorValue(SavedAxisList(v.dynamicAxes))
              && r.value[IsSparseKey] == BoolValue(v.isSparse)
              && r.value[NameKey] == StringValue(v.name)
              && r.value[NeedsGradientKey] == BoolValue(v.needsGradient)
              && r.value[ShapeKey] == ShapeValue(v.shape)
    ensures r.Success? ==>
              && (ValueKey in r.value <==> v.kind == Parameter || v.kind == Constant)
              && (ValueKey in r.value ==> r.value[ValueKey] == ArrayViewValue(v.value.value))
  {
    if v.kind == Output then
      Failure(OutputNotSaveable)
    else
      var d := map[
        ModelVersionKey := SizeTValue(ModelVersion),
        TypeKey := StringValue(TypeValue),
        UidKey := StringValue(v.uid),
        KindKey := SizeTValue(KindCode(v.kind)),
        DataTypeKey := SizeTValue(DataTypeCode(v.dataType)),
        DynamicAxisKey := VectorValue(SavedAxisList(v.dynamicAxes)),
        IsSparseKey := BoolValue(v.isSparse),
        NameKey := StringValue(v.name),
        NeedsGradientKey := BoolValue(v.needsGradient),
        ShapeKey := ShapeValue(v.shape)];
      if v.kind.HoldsValue() then Success(d[ValueKey := ArrayViewValue(v.value.value)]) else Success(d)
  }

  /** Save fills the dictionary entry by entry, and the dynamic-axis vector
      push_back by push_back. */
  method Save(v: Variable) returns (r: Result<Dictionary>)
    ensures r == Saved(v)
  {
    if v.kind == Output {
      return Failure(OutputNotSaveable);
    }
    var dict: Dictionary := map[];
    dict := dict[ModelVersionKey := SizeTValue(ModelVersion)];
    dict := dict[TypeKey := StringValue(TypeValue)];
    dict := dict[UidKey := StringValue(v.uid)];
    dict := dict[KindKey := SizeTValue(KindCode(v.kind))];
    dict := dict[DataTypeKey := SizeTValue(DataTypeCode(v.dataType))];
    var axes := v.dynamicAxes;
    var entries := NoValues(|axes|);
    for i := 0 to |axes|
      invariant entries == NoValues(|axes|) + AxisEntries(axes[..i])
    {
      assert AxisEntries(axes[..i + 1]) == AxisEntries(axes[..i]) + [AxisValue(axes[i])];
      entries := entries + [AxisValue(axes[i])];
    }
    assert axes[..|axes|] == axes;
    dict := dict[DynamicAxisKey := VectorValue(entries)];
    dict := dict[IsSparseKey := BoolValue(v.isSparse)];
    dict := dict[NameKey := StringValue(v.name)];
    dict := dict[NeedsGradientKey := BoolValue(v.needsGradient)];
    dict := dict[ShapeKey := ShapeValue(v.shape)];
    if v.kind == Parameter || v.kind == Constant {
      dict := dict[ValueKey := ArrayViewValue(v.value.value)];
    }
    return Success(dict);
  }

  // ---------------------------------------------------------------------------
  // Load
  // ---------------------------------------------------------------------------

  /** The required-key part of the model-dictionary validation. */
  function ValidateModelDictionary(d: Dictionary): (r: Result<()>)
    ensures r.Success? <==> RequiredKeys <= d.Keys
    ensures r.Failure? ==> r.error == MissingRequiredKeys(RequiredKeys - d.Keys)
  {
    if RequiredKeys <= d.Keys then Success(()) else Failure(MissingRequiredKeys(RequiredKeys - d.Keys))
  }

  /** The kind check: the narrowed code must name Constant, Input, Parameter or Placeholder. */
  function LoadableKind(code: nat): (r: Result<VariableKind>)
    ensures r.Success? <==> exists k :: k != Output && KindCode(k) == Narrowed(code)
    ensures r.Success? ==> r.value != Output && KindCode(r.value) == Narrowed(code)
    ensures r.Failure? ==> r.error == UnexpectedKind(code)
  {
    var kind := KindOfCode(code);
    if kind == Some(Constant) || kind == Some(Input) || kind == Some(Parameter) || kind == Some(Placeholder) then
      Success(kind.value)
    else
      Failure(UnexpectedKind(code))
  }

  /** The data-type check: the narrowed code must name Unknown, Float or Double. */
  function LoadableDataType(code: nat): (r: Result<DataType>)
    ensures r.Success? <==> Narrowed(code) <= DataTypeCode(Double)
    ensures r.Success? ==> !r.value.Unlisted? && DataTypeCode(r.value) == Narrowed(code)
    ensures r.Failure? ==> r.error == UnexpectedDataType(code)
  {
    var dataType := DataTypeOfCode(code);
    if dataType == Some(Unknown) || dataType == Some(Float) || dataType == Some(Double) then
      Success(dataType.value)
    else
      Failure(UnexpectedDataType(code))
  }

  datatype Header = Header(uid: string, kind: VariableKind, dataType: DataType)

  /** Validation of the dictionary and of its type, uid, kind and data-type entries. */
  function CheckHeader(d: Dictionary): (r: Result<Header>)
    ensures r.Success? <==>
              && RequiredKeys <= d.Keys
              && d[TypeKey] == StringValue(TypeValue)
              && d[UidKey].StringValue?
              && d[KindKey].SizeTValue? && LoadableKind(d[KindKey].n).Success?
              && d[DataTypeKey].SizeTValue? && LoadableDataType(d[DataTypeKey].n).Success?
    ensures r.Success? ==>
              && d[UidKey] == StringValue(r.value.uid)
              && r.value.kind != Output && KindCode(r.value.kind) == Narrowed(d[KindKey].n)
              && !r.value.dataType.Unlisted? && DataTypeCode(r.value.dataType) == Narrowed(d[DataTypeKey].n)
    ensures RequiredKeys <= d.Keys && d[TypeKey].StringValue? && d[TypeKey].s != TypeValue ==>
              r == Failure(UnexpectedTypeValue(d[TypeKey].s))
    ensures RequiredKeys <= d.Keys && d[TypeKey] == StringValue(TypeValue) && d[UidKey].StringValue?
            && d[KindKey].SizeTValue? && LoadableKind(d[KindKey].n).Failure? ==>
              r == Failure(UnexpectedKind(d[KindKey].n))
    ensures RequiredKeys <= d.Keys && d[TypeKey] == StringValue(TypeValue) && d[UidKey].StringValue?
            && d[KindKey].SizeTValue? && LoadableKind(d[KindKey].n).Success?
            && d[DataTypeKey].SizeTValue? && LoadableDataType(d[DataTypeKey].n).Failure? ==>
              r == Failure(UnexpectedDataType(d[DataTypeKey].n))
  {
    var _ :- ValidateModelDictionary(d);
    var typeName :- GetString(d, TypeKey);
    if typeName != TypeValue then
      Failure(UnexpectedTypeValue(typeName))
    else
      var uid :- GetString(d, UidKey);
      var kindCode :- GetSizeT(d, KindKey);
      var kind :- LoadableKind(kindCode);
      var dataTypeCode :- GetSizeT(d, DataTypeKey);
      var dataType :- LoadableDataType(dataTypeCode);
      Success(Header(uid, kind, dataType))
  }

  datatype Attributes = Attributes(isSparse: bool, name: string, needsGradient: bool, shape: NDShape)

  /** The reads of the sparsity flag, name, gradient flag and shape. */
  function ReadAttributes(d: Dictionary): (r: Result<Attributes>)
    ensures r.Success? <==>
              && IsSparseKey in d && d[IsSparseKey].BoolValue?
              && NameKey in d && d[NameKey].StringValue?
              && NeedsGradientKey in d && d[NeedsGradientKey].BoolValue?
              && ShapeKey in d && d[ShapeKey].ShapeValue?
    ensures r.Success? ==>
              && d[IsSparseKey] == BoolValue(r.value.isSparse)
              && d[NameKey] == StringValue(r.value.name)
              && d[NeedsGradientKey] == BoolValue(r.value.needsGradient)
              && d[ShapeKey] == ShapeValue(r.value.shape)
  {
    var isSparse :- GetBool(d, IsSparseKey);
    var name :- GetString(d, NameKey);
    var needsGradient :- GetBool(d, NeedsGradientKey);
    var shape :- GetShape(d, ShapeKey);
    Success(Attributes(isSparse, name, needsGradient, shape))
  }

  /** What Load hands back: a plain Variable, or one wrapped as a Parameter or a Constant. */
  datatype LoadedVariable =
    | AsVariable(variable: Variable)
    | AsParameter(variable: Variable)
    | AsConstant(variable: Variable)

  /** The result selection: Constants and Parameters also read the value entry. */
  function Assemble(d: Dictionary, h: Header, axes: seq<Axis>, a: Attributes): (r: Result<LoadedVariable>)
    ensures r.Success? <==> (h.kind.HoldsValue() ==> ValueKey in d && d[ValueKey].ArrayViewValue?)
    ensures r.Success? ==>
              var v := r.value.variable;
              && v.shape == a.shape && v.kind == h.kind && v.dataType == h.dataType
              && v.needsGradient == a.needsGradient && v.dynamicAxes == axes
              && v.isSparse == a.isSparse && v.name == a.name && v.uid == h.uid
              && (r.value.AsParameter? <==> h.kind == Parameter)
              && (r.value.AsConstant? <==> h.kind == Constant)
              && (v.value.Some? ==> d[ValueKey] == ArrayViewValue(v.value.value))
  {
    if h.kind == Constant || h.kind == Parameter then
      var value :- GetArrayView(d, ValueKey);
      var v: Variable := VariableFields(a.shape, h.kind, h.dataType, Some(value), a.needsGradient, axes, a.isSparse, a.name, h.uid);
      if v.kind == Parameter then Success(AsParameter(v)) else Success(AsConstant(v))
    else
      Success(AsVariable(VariableFields(a.shape, h.kind, h.dataType, None, a.needsGradient, axes, a.isSparse, a.name, h.uid)))
  }

  /** The variable Load rebuilds from a dictionary, or the failure it raises. */
  function Loaded(d: Dictionary): (r: Result<LoadedVariable>)
    ensures r.Success? ==>
              var v := r.value.variable;
              && RequiredKeys <= d.Keys
              && d[TypeKey] == StringValue(TypeValue)
              && d[UidKey] == StringValue(v.uid)
              && v.kind != Output && d[KindKey].SizeTValue? && Narrowed(d[KindKey].n) == KindCode(v.kind)
              && !v.dataType.Unlisted? && d[DataTypeKey].SizeTValue? && Narrowed(d[DataTypeKey].n) == DataTypeCode(v.dataType)
              && d[IsSparseKey] == BoolValue(v.isSparse)
              && d[NameKey] == StringValue(v.name)
              && d[NeedsGradientKey] == BoolValue(v.needsGradient)
              && d[ShapeKey] == ShapeValue(v.shape)
    ensures r.Success? ==>
              var v := r.value.variable;
              && (r.value.AsParameter? <==> v.kind == Parameter)
              && (r.value.AsConstant? <==> v.kind == Constant)
              && (r.value.AsVariable? ==> v.value == None)
              && (v.value.Some? ==> ValueKey in d && d[ValueKey] == ArrayViewValue(v.value.value))
    ensures r.Success? ==>
              var v := r.value.variable;
              && d[DynamicAxisKey].VectorValue?
              && var entries := d[DynamicAxisKey].items;
              && |v.dynamicAxes| == 2 * |entries|
              && v.dynamicAxes[..|entries|] == DefaultAxes(|entries|)
              && AxisEntries(v.dynamicAxes[|entries|..]) == entries
  {
    var header :- CheckHeader(d);
    var entries :- GetVector(d, DynamicAxisKey);
    var axes :- LoadedAxes(entries);
    var attributes :- ReadAttributes(d);
    Assemble(d, header, axes, attributes)
  }

  /** Load reads the header, fills the dynamic axes with a loop, then assembles the result. */
  method Load(d: Dictionary) returns (r: Result<LoadedVariable>)
    ensures r == Loaded(d)
  {
    var header :- CheckHeader(d);
    var entries :- GetVector(d, DynamicAxisKey);
    var axes :- ReadDynamicAxes(entries);
    var attributes :- ReadAttributes(d);
    r := Assemble(d, header, axes, attributes);
  }

  // ---------------------------------------------------------------------------
  // Properties of Load
  // ---------------------------------------------------------------------------

  /** Every condition Load checks, stated on the dictionary alone. */
  predicate Loadable(d: Dictionary) {
    && RequiredKeys <= d.Keys
    && d[TypeKey] == StringValue(TypeValue)
    && d[UidKey].StringValue?
    && d[KindKey].SizeTValue?
    && KindOfCode(d[KindKey].n).Some? && KindOfCode(d[KindKey].n).value != Output
    && d[DataTypeKey].SizeTValue? && Narrowed(d[DataTypeKey].n) <= DataTypeCode(Double)
    && d[DynamicAxisKey].VectorValue?
    && (forall i :: 0 <= i < |d[DynamicAxisKey].items| ==> d[DynamicAxisKey].items[i].AxisValue?)
    && d[IsSparseKey].BoolValue?
    && d[NameKey].StringValue?
    && d[NeedsGradientKey].BoolValue?
    && d[ShapeKey].ShapeValue?
    && (KindOfCode(d[KindKey].n).value.HoldsValue() ==> ValueKey in d && d[ValueKey].ArrayViewValue?)
  }

  lemma LoadSucceedsExactlyWhenLoadable(d: Dictionary)
    ensures Loaded(d).Success? <==> Loadable(d)
  {
  }

  lemma LoadRejectsForeignType(d: Dictionary, found: string)
    requires RequiredKeys <= d.Keys
    requires d[TypeKey] == StringValue(found) && found != TypeValue
    ensures Loaded(d) == Failure(UnexpectedTypeValue(found))
  {
  }

  lemma LoadRejectsKind(d: Dictionary, code: SizeT)
    requires RequiredKeys <= d.Keys
    requires d[TypeKey] == StringValue(TypeValue) && d[UidKey].StringValue?
    requires d[KindKey] == SizeTValue(code)
    requires Narrowed(code) == KindCode(Output) || Narrowed(code) > KindCode(Placeholder)
    ensures Loaded(d) == Failure(UnexpectedKind(code))
  {
  }

  lemma LoadRejectsDataType(d: Dictionary, code: SizeT)
    requires RequiredKeys <= d.Keys
    requires d[TypeKey] == StringValue(TypeValue) && d[UidKey].StringValue?
    requires d[KindKey].SizeTValue? && LoadableKind(d[KindKey].n).Success?
    requires d[DataTypeKey] == SizeTValue(code) && Narrowed(code) > DataTypeCode(Double)
    ensures Loaded(d) == Failure(UnexpectedDataType(code))
  {
  }

  lemma LoadRequiresValueForParameterAndConstant(d: Dictionary)
    requires Loadable(d) && KindOfCode(d[KindKey].n).value.HoldsValue()
    ensures ValueKey in d && Loaded(d).Success?
    ensures Loaded(d).value.variable.value == Some(d[ValueKey].view)
  {
  }

  /** A kind or data-type code is narrowed before it is checked: any code whose
      low 32 bits are the code of a loadable kind or data type loads as that one,
      and one whose low 32 bits are Output's or an unlisted data type's fails. */
  lemma LoadNarrowsCodes(q: nat, k: VariableKind, t: DataType)
    ensures k != Output ==> LoadableKind(q * EnumValueRange + KindCode(k)) == Success(k)
    ensures k == Output ==> LoadableKind(q * EnumValueRange + KindCode(k)).Failure?
    ensures !t.Unlisted? ==> LoadableDataType(q * EnumValueRange + DataTypeCode(t)) == Success(t)
    ensures t.Unlisted? ==> LoadableDataType(q * EnumValueRange + DataTypeCode(t)).Failure?
  {
  }

  // ---------------------------------------------------------------------------
  // Save followed by Load
  // ---------------------------------------------------------------------------

  /** The wrapper Load is expected to return for a variable of this kind. */
  function Wrapped(v: Variable): LoadedVariable {
    match v.kind
    case Parameter => AsParameter(v)
    case Constant => AsConstant(v)
    case _ => AsVariable(v)
  }

  /** A variable with no dynamic axes and a loadable data type survives a save and a load. */
  lemma LoadSaveRoundTrip(v: Variable)
    requires v.kind != Output && !v.dataType.Unlisted? && v.dynamicAxes == []
    ensures Saved(v).Success? && Loaded(Saved(v).value) == Success(Wrapped(v))
  {
  }

  /** A saved variable with a data type Load does not list is rejected on load. */
  lemma SaveLoadRejectsUnlistedDataType(v: Variable)
    requires v.kind != Output && v.dataType.Unlisted?
    ensures Saved(v).Success?
    ensures Loaded(Saved(v).value) == Failure(UnexpectedDataType(DataTypeCode(v.dataType)))
  {
  }

  /** A saved variable with dynamic axes cannot be loaded back: the leading
      default entries Save writes are not Axis values. */
  lemma SaveLoadFailsWithDynamicAxes(v: Variable)
    requires v.kind != Output && v.dynamicAxes != []
    ensures Saved(v).Success? && Loaded(Saved(v).value).Failure?
  {
  }

  // ---------------------------------------------------------------------------
  // The dynamic-axis vectors as written, and as evidently intended
  // ---------------------------------------------------------------------------

  lemma SavedAxisListUnreadable(axes: seq<Axis>)
    requires axes != []
    ensures LoadedAxes(SavedAxisList(axes)) == Failure(WrongValueType(DynamicAxisKey))
  {
  }

  /** A one-entry list loads as two axes, the first a default axis. */
  lemma LoadedAxesDoubled(a: Axis)
    ensures LoadedAxes([AxisValue(a)]) == Success([DefaultAxis, a])
  {
    var entries := [AxisValue(a)];
    assert entries[0].AxisValue?;
    assert AxisEntries([a]) == entries;
    AxisEntriesInjective(AxesOf(entries).value, [a]);
    assert DefaultAxes(1) + [a] == [DefaultAxis, a];
    assert LoadedAxes(entries) == Success(DefaultAxes(1) + [a]);
  }

  /** The dynamic-axis entry Save evidently means to write: exactly the axes. */
  function IntendedAxisList(axes: seq<Axis>): (r: seq<DictionaryValue>)
    ensures |r| == |axes|
    ensures forall i :: 0 <= i < |r| ==> r[i] == AxisValue(axes[i])
  {
    AxisEntries(axes)
  }

  /** The axes Load evidently means to build: each entry read as an Axis, nothing more. */
  function IntendedAxes(entries: seq<DictionaryValue>): (r: Result<seq<Axis>>)
    ensures r.Success? <==> forall i :: 0 <= i < |entries| ==> entries[i].AxisValue?
    ensures r.Success? ==> |r.value| == |entries| && IntendedAxisList(r.value) == entries
  {
    match AxesOf(entries)
    case None => Failure(WrongValueType(DynamicAxisKey))
    case Some(axes) => Success(axes)
  }

  lemma {:induction false} IntendedAxisRoundTrip(axes: seq<Axis>)
    ensures IntendedAxes(IntendedAxisList(axes)) == Success(axes)
  {
    var r := IntendedAxes(IntendedAxisList(axes));
    assert r.Success?;
    AxisEntriesInjective(r.value, axes);
  }

  /** The dictionary Save evidently means to produce: as Saved, but with a
      dynamic-axis entry holding exactly the axes. */
  function IntendedSaved(v: Variable): (r: Result<Dictionary>)
    ensures r.Failure? <==> v.kind == Output
    ensures r.Success? ==>
              && r.value.Keys == Saved(v).value.Keys
              && r.value[DynamicAxisKey] == VectorValue(IntendedAxisList(v.dynamicAxes))
              && forall key :: key in r.value && key != DynamicAxisKey ==> r.value[key] == Saved(v).value[key]
  {
    var d :- Saved(v);
    Success(d[DynamicAxisKey := VectorValue(IntendedAxisList(v.dynamicAxes))])
  }

  /** The variable Load evidently means to rebuild: as Loaded, but with the
      dynamic axes read one per entry and nothing prepended. */
  function IntendedLoaded(d: Dictionary): (r: Result<LoadedVariable>)
    ensures r.Success? ==>
              && DynamicAxisKey in d && d[DynamicAxisKey].VectorValue?
              && d[DynamicAxisKey].items == IntendedAxisList(r.value.variable.dynamicAxes)
  {
    var header :- CheckHeader(d);
    var entries :- GetVector(d, DynamicAxisKey);
    var axes :- IntendedAxes(entries);
    var attributes :- ReadAttributes(d);
    Assemble(d, header, axes, attributes)
  }

  /** With the intended vectors, every savable variable of a loadable data type
      is loaded back unchanged, dynamic axes included. */
  lemma {:induction false} IntendedRoundTrip(v: Variable)
    requires v.kind != Output && !v.dataType.Unlisted?
    ensures IntendedSaved(v).Success? && IntendedLoaded(IntendedSaved(v).value) == Success(Wrapped(v))
  {
    var d := IntendedSaved(v).value;
    IntendedAxisRoundTrip(v.dynamicAxes);
    assert GetVector(d, DynamicAxisKey) == Success(IntendedAxisList(v.dynamicAxes));
  }
}
