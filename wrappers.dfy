/** Option for values that may be missing (a missing JSON file, a regex that found
    nothing, a fetch that returned no data). */
module Wrappers {

  datatype Option<+T> = None | Some(value: T)
}
