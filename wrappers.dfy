/** Small value types shared by the two image providers and the dispatcher. */
module Wrappers {

  /** A JSON field that may be absent from the decoded object. */
  datatype Option<+T> = None | Some(value: T)

  /** How a provider function ends: it returns its list of strings, or an exception
      that its own handler does not catch (IndexError, KeyError) leaves it. */
  datatype Outcome = Returned(values: seq<string>) | Crash
}
