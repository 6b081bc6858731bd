/** The present/absent wrapper that stands for Python's `Optional[...]`/`None`. */
module Wrappers {

  /** `None` is an attribute that was never set; `Some(v)` one that holds `v`. */
  datatype Option<+T> = None | Some(value: T)
}
