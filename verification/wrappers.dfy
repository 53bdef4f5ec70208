/** The JavaScript `T | null` / `T | undefined` shape used throughout the dashboard. */
module Wrappers {

  datatype Option<+T> = None | Some(value: T)
}
