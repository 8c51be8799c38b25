/** Optional values. In this model `None` stands for a pandas/NumPy NaN or an absent entry. */
module Wrappers {

  datatype Option<+T> = None | Some(value: T)
}
