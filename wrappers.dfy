/** The optional-value datatype used for the fields that a search hit may lack
    and for the query, which the search UI state may leave undefined. */
module Wrappers {

  datatype Option<+T> = None | Some(value: T)
}
