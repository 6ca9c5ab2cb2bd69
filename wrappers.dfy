/** Optional values: the model's explicit stand-in for the source's `None`
    returns and for the NaN / infinite results pandas and float arithmetic
    would otherwise produce silently. */
module Wrappers {

  datatype Option<+T> = None | Some(value: T)
}
