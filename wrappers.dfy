/** Missing values. A cell of the odds table that pandas would hold as NaN is `None`. */
module Wrappers {

  datatype Option<+T> = None | Some(value: T)
}
