/** Runs and logs are read from their end: everything but the last element, and the last. */
module Sequences {

  function But<T>(s: seq<T>): seq<T>
    requires s != []
  {
    s[..|s| - 1]
  }

  function Last<T>(s: seq<T>): T
    requires s != []
  {
    s[|s| - 1]
  }
}
