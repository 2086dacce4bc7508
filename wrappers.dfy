/** Optional values, results, and the exceptions the scenario code can raise. */
module Wrappers {

  datatype Option<+T> = None | Some(value: T)

  datatype Result<+T, +E> = Ok(value: T) | Err(error: E)

  /**
   * The Python exceptions of the modelled code. ValueError belongs to the general rule
   * for unpacking a list into a fixed tuple; the scenario itself never reaches it.
   */
  datatype Exception =
    | IndexError      // indexing past the end of a list
    | ValueError      // unpacking a list of the wrong length into a fixed tuple
    | AssertionError  // a failed `assert`
    | NameError       // reading a name that was never bound
    | AttributeError  // reading an attribute that was never set
}
