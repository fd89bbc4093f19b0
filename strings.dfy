/** Go's `strings.Join`, used for a layer's command line and as the core of `path.Join`. */
module Strings {

  /** The elements of `parts` with `sep` between each pair of neighbours. */
  function JoinWith(parts: seq<string>, sep: string): string
    decreases |parts|
  {
    if |parts| == 0 then ""
    else if |parts| == 1 then parts[0]
    else parts[0] + sep + JoinWith(parts[1..], sep)
  }
}
