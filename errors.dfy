/**
  The failures that the serialiser and the parameter factories can raise.
  CNTK reports them by throwing (LogicError, InvalidArgument, or the exceptions
  raised by Dictionary lookups); here each becomes the Failure case of a Result.
 */
module Errors {

  datatype Error =
    | OutputNotSaveable                       // LogicError: an Output variable cannot be saved
    | MissingRequiredKeys(missing: set<string>) // the model dictionary lacks required entries
    | MissingKey(key: string)                 // lookup of an absent key in a read-only Dictionary
    | WrongValueType(key: string)             // a DictionaryValue read as a type it does not hold
    | UnexpectedTypeValue(found: string)      // LogicError: the 'type' entry is not "Variable"
    | UnexpectedKind(code: nat)               // LogicError: the 'kind' entry names no loadable kind
    | UnexpectedDataType(code: nat)           // LogicError: the 'data_type' entry is not loadable
    | UnsupportedDataType(code: nat)          // InvalidArgument: no random fill for this data type

  datatype Option<+T> = None | Some(value: T)

  datatype Result<+T> = Success(value: T) | Failure(error: Error) {

    predicate IsFailure() {
      Failure?
    }

    function PropagateFailure<U>(): Result<U>
      requires Failure?
    {
      Failure(error)
    }

    function Extract(): T
      requires Success?
    {
      value
    }
  }
}
