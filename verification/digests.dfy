/** The foreign primitives the pipeline relies on: SHA-256 and MD5 hex digests and the
    canonical (sorted-key) JSON serialiser. They are deterministic functions whose internals
    are not modelled; what the model may assume of them is stated by `WellBehaved`. */
module Digests {
  import opened Json

  datatype Oracles = Oracles(
    sha256Hex: string -> string,     // hex digest of the UTF-8 encoding of the text
    md5Hex: string -> string,        // hex digest of the UTF-8 encoding of the text
    canonicalJson: Json -> string)   // json.dumps with sorted keys

  const HexDigits: string := "0123456789abcdef"

  predicate IsLowerHex(s: string) {
    forall i :: 0 <= i < |s| ==> s[i] in HexDigits
  }

  /** SHA-256 yields 64 and MD5 yields 32 lower-case hexadecimal characters, for every input. */
  ghost predicate WellBehaved(o: Oracles) {
    && (forall s :: |o.sha256Hex(s)| == 64 && IsLowerHex(o.sha256Hex(s)))
    && (forall s :: |o.md5Hex(s)| == 32 && IsLowerHex(o.md5Hex(s)))
  }

  /** A content hash: SHA-256 over the canonical serialisation of a JSON document. */
  function DocumentDigest(o: Oracles, doc: Json): (r: string)
    ensures WellBehaved(o) ==> |r| == 64 && IsLowerHex(r)
  {
    o.sha256Hex(o.canonicalJson(doc))
  }
}
