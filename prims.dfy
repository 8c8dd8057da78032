/** Foreign primitives the decoders call into but whose code is not part of this model:
    SHA-256, UTF-8 validity, JSON and CBOR decoding, Bitcoin signed-message
    verification, transaction-output decoding, base58 addresses and Unicode lower-casing. They are passed in
    as a record of functions, so every property proved holds for any implementation. */
module Prims {
  import opened Base

  datatype Prims = Prims(
    /** `sha256.Sum256` */
    sha256: Bytes -> Bytes,
    /** `strings.ToLower`: Unicode lower-casing of the UTF-8 text a Go string holds */
    toLower: string -> string,
    /** `utf8.Valid` */
    utf8Valid: Bytes -> bool,
    /** `json.Unmarshal` into a `json.RawMessage` succeeds (the bytes are one JSON value) */
    jsonValid: Bytes -> bool,
    /** `json.Unmarshal` into a `map[string]string` */
    jsonStringMap: Bytes -> Option<map<string, string>>,
    /** `cbor.Unmarshal` into a map succeeds */
    cborValid: Bytes -> bool,
    /** `bitcoin.VerifyMessage(address, base64(signature), message)` reports no error */
    verifyMessage: (string, Bytes, Bytes) -> bool,
    /** `TransactionOutput.ReadFrom` of these bytes reports no error */
    readOutput: Bytes -> bool,
    /** `TransactionOutput.Bytes` of a zero-valued output */
    emptyOutputBytes: Bytes,
    /** `PKHash.Address`: the base58 address of a public-key hash */
    address: Bytes -> string
  )
}
