/** Optional values: a missing hierarchy key, a NaN mean or an absent leaderboard. */
module Wrappers {

  datatype Option<+T> = None | Some(value: T)
}
