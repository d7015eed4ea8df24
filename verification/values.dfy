/**
 Small value wrappers shared by the whole model.

 - Option<T> is Python's `None` or a value.
 - Parsed<T> is the outcome of converting one field of a JSON request body
   (`int(...)`, `float(...)`, a dictionary lookup): either the converted value
   or the message of the exception the conversion raised.
 */
module Values {

  datatype Option<+T> = None | Some(value: T)

  datatype Parsed<+T> = Value(value: T) | Unparsable(error: string)
}
