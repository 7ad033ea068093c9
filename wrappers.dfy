/** Option and Result, and the Python exception kinds the model raises. */
module Wrappers {

  /** A value that may be absent (Python's `None`). */
  datatype Option<+T> = None | Some(value: T)

  /** The outcome of a Python call: a return value or a raised exception. */
  datatype Result<+T, +E> = Ok(value: T) | Err(error: E)
}

module Exceptions {

  /** The exceptions the modelled code can raise. */
  datatype Exception =
    | ValueError(message: string)
    /** `'NoneType' object has no attribute <attribute>` and the like */
    | AttributeError(attribute: string)
    | KeyError(key: string)
    /** `list index out of range` */
    | IndexError
    /** a conversion applied to `None` */
    | TypeError
    /** a name used but never bound in the module */
    | NameError(name: string)
    /** a configuration value rejected by a validator, naming the setting */
    | Invalid(setting: string)
    /** a response body that is not well-formed XML */
    | XmlParseError
}
