/**
 * Library code the pull bookkeeping calls but does not define: reference and
 * URL parsing, JSON decoding and encoding, and SHA-256. Each is a function
 * value supplied by the caller, so every result of the model is a function of
 * what these return and nothing more is assumed about them.
 */
module Externals {
  import opened Wrappers
  import opened Docker

  /** `net/url.URL`, the three parts used for the scratch directory. */
  datatype URL = URL(scheme: string, host: string, path: string)

  datatype Library = Library(
    /** `reference.ParseNamed`, or its error text. */
    parseNamed: string -> Result<Named, string>,
    /** `url.Parse`, whose error the caller ignores. */
    parseURL: string -> URL,
    /** `json.Unmarshal` of a per-layer document, or its error text. */
    unmarshalV1: string -> Result<V1Document, string>,
    /** `Image.MarshalJSON`, or its error text. */
    marshalImage: DockerImage -> Result<seq<bv8>, string>,
    /** `fmt.Sprintf("%x", sha256.Sum256(bytes))`. */
    sha256Hex: seq<bv8> -> string)
}
