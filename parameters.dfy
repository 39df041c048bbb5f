/**
  The data-type dispatch of the two random-initialisation factories of
  Parameter (Parameter::UniformInitParameter and Parameter::NormalInitParameter).
  Drawing the random values is left to the library; the model records which
  fill each factory asks for.
 */
module Parameters {
  import opened Errors
  import opened Dictionaries
  import opened Variables

  /** The element type the random fill is instantiated for: float or double. */
  datatype ElementType = FloatElements | DoubleElements

  /** The random fill a factory requests from the library. */
  datatype RandomFill =
    | RandomUniform(element: ElementType, shape: NDShape, low: real, high: real, seed: nat)
    | RandomNormal(element: ElementType, shape: NDShape, mean: real, stdDev: real, seed: nat)

  /** A Parameter built from a random fill, under a name. */
  datatype RandomParameter = RandomParameter(fill: RandomFill, name: string)

  function DataTypeOf(e: ElementType): DataType {
    match e
    case FloatElements => Float
    case DoubleElements => Double
  }

  /** The switch both factories share: only Float and Double have a random fill. */
  function ElementTypeFor(t: DataType): (r: Result<ElementType>)
    ensures r.Success? <==> t == Float || t == Double
    ensures r.Success? ==> DataTypeOf(r.value) == t
    ensures r.Failure? ==> r.error == UnsupportedDataType(DataTypeCode(t))
  {
    match t
    case Float => Success(FloatElements)
    case Double => Success(DoubleElements)
    case _ => Failure(UnsupportedDataType(DataTypeCode(t)))
  }

  /** A parameter filled uniformly over [-range, range]. */
  function UniformInitParameter(shape: NDShape, t: DataType, range: real, seed: nat, name: string): (r: Result<RandomParameter>)
    ensures r.Success? <==> t == Float || t == Double
    ensures r.Failure? ==> r.error == UnsupportedDataType(DataTypeCode(t))
    ensures r.Success? ==>
              && r.value.name == name
              && r.value.fill.RandomUniform?
              && DataTypeOf(r.value.fill.element) == t
              && r.value.fill.shape == shape && r.value.fill.seed == seed
              && r.value.fill.low == -range && r.value.fill.high == range
  {
    var element :- ElementTypeFor(t);
    Success(RandomParameter(RandomUniform(element, shape, -range, range, seed), name))
  }

  /** A parameter filled from a normal distribution with mean 0 and the given deviation. */
  function NormalInitParameter(shape: NDShape, t: DataType, stdDev: real, seed: nat, name: string): (r: Result<RandomParameter>)
    ensures r.Success? <==> t == Float || t == Double
    ensures r.Failure? ==> r.error == UnsupportedDataType(DataTypeCode(t))
    ensures r.Success? ==>
              && r.value.name == name
              && r.value.fill.RandomNormal?
              && DataTypeOf(r.value.fill.element) == t
              && r.value.fill.shape == shape && r.value.fill.seed == seed
              && r.value.fill.mean == 0.0 && r.value.fill.stdDev == stdDev
  {
    var element :- ElementTypeFor(t);
    Success(RandomParameter(RandomNormal(element, shape, 0.0, stdDev, seed), name))
  }

  /** Both factories accept the same data types, and each of them is one Load accepts. */
  lemma InitDataTypesAreLoadable(shape: NDShape, t: DataType, range: real, stdDev: real, seed: nat, name: string)
    ensures UniformInitParameter(shape, t, range, seed, name).Success?
            <==> NormalInitParameter(shape, t, stdDev, seed, name).Success?
    ensures UniformInitParameter(shape, t, range, seed, name).Success?
            ==> LoadableDataType(DataTypeCode(t)) == Success(t)
  {
  }
}
