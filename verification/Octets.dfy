/** Bytes and the few octet values the proxy's parsers look at. */
module Octets {

  type Byte = b: int | 0 <= b < 256

  type Bytes = seq<Byte>

  const LF: Byte := 10
  const CR: Byte := 13
  const COLON: Byte := 58
  const SEMICOLON: Byte := 59
}
