/** Optional values, the errors the object model raises, and a result type
    that carries either a value or one of those errors. */
module Wrappers {

  datatype Option<+T> = None | Some(value: T)

  /** One entry of a pydantic ValidationError: which rule a field broke. */
  datatype FieldError =
    | TitleTooLong                              // Parameter title over 255 characters
    | TitleMismatch                             // title does not match ^[a-zA-Z0-9]+$
    | NotPositive(field: string)                // a `gt=0` constraint failed
    | TooLarge(field: string, limit: int)       // a `le=limit` constraint failed
    | StringOnly(field: string)                 // field allowed only when Type == "String"
    | NumberOnly(field: string)                 // field allowed only when Type == "Number"
    | DefaultTypeMismatch(paramType: string)    // Default does not fit the parameter Type
    | ForbiddenWithCreationPolicy(field: string)
    | RequiredWithoutCreationPolicy(field: string)
    | ExportRejected                            // Export.validate refused the value
    | ValueRejected                             // an Output Value that is not a string, dict or helper
    | HandleRejected                            // a WaitCondition Handle that is not a dict or helper
    | GlobalsNeedServerless                     // Globals on a non-serverless template
    | TransformConflictsWithGlobals             // non-serverless Transform while Globals is set

  /** The exceptions raised by the object model. */
  datatype Error =
    | ValidationError(errors: seq<FieldError>)  // pydantic: every failing field, in field order
    | LimitReached(section: string, limit: nat) // ValueError "Maximum ... reached"
    | DuplicateKey(key: string)                 // ValueError 'duplicate key "..." detected'
    | TypeMismatch(expected: string)            // TypeError "string or X required"
    | MalformedInterface                        // TypeError/KeyError/AttributeError on an unexpected metadata shape

  datatype Result<+T> = Ok(value: T) | Fail(error: Error)
}
