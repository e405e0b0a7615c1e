/** Optional values, results, and the error outcomes the executor reports. */
module Outcomes {
  import opened WasmValues

  datatype Option<+T> = None | Some(value: T)

  /**
   * Each ereport(ERROR, ...) of the executor, with the datum its message
   * names. Message text and DEBUG/NOTICE logging are not modelled.
   */
  datatype Error =
    | NotSuperuser                         // creating an instance needs a system admin
    | LoadFailed(path: string)             // VMLoadWasmFromFile failed
    | ValidationFailed(path: string)       // VMValidate failed
    | InstanceNotFound(id: int)            // no instance is registered under id
    | CatalogNotFound(id: int)             // the instance has no function catalog yet
    | FunctionNotFound(id: int, name: string)
    | TooManyParams(name: string)          // more than MAX_PARAMS parameters
    | TooManyReturns(name: string)         // more than MAX_RETURNS results
    | UnsupportedType(ty: ValType)         // a parameter or result that is neither I32 nor I64
    | InputIndexOutOfRange(index: nat)     // more arguments than catalogued inputs: inputs[index] is read past the end
    | CallFailed(name: string)             // the runtime reported a failed call or a trap

  datatype Result<+T> = Ok(value: T) | Err(error: Error)
}
