/** Optional values: the model of Kotlin's nullable types (`User?`, `IncidentType?`, `String?`). */
module Wrappers {
  datatype Option<+T> = None | Some(value: T)
}
