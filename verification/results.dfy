/** Optional values, error-carrying results, and the compile errors the passes report. */
module Results {

  datatype Option<+T> = None | Some(value: T)

  datatype Result<+T, +E> = Ok(value: T) | Err(error: E)

  /** A compile-time failure tied to the offending element. */
  datatype CompileError =
    | ChainError                          // v-else-if / v-else whose previous sibling ends no chain
    | IterationSyntaxError(expr: string)  // a v-for value without the ` in ` keyword
}
