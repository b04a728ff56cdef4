/** Object identifiers and their textual form. */
module Oids {

  /** Number of bytes in a raw object id. */
  const RawSize: nat := 20

  /** A raw object id: exactly `RawSize` bytes. */
  type Oid = s: seq<bv8> | |s| == RawSize witness seq(RawSize, _ => 0)

  const HexDigits: string := "0123456789abcdef"

  /** Lowercase hex of a byte string, high nibble first. */
  function HexBytes(bs: seq<bv8>): (h: string)
    ensures |h| == 2 * |bs|
    ensures forall k :: 0 <= k < |h| ==> h[k] in HexDigits
  {
    if bs == [] then []
    else [HexDigits[(bs[0] >> 4) as int], HexDigits[(bs[0] & 15) as int]] + HexBytes(bs[1..])
  }

  /** The formatted id that the binding hands back for an oid: forty
      lowercase hex digits. */
  function Hex(oid: Oid): (h: string)
    ensures |h| == 2 * RawSize
    ensures forall k :: 0 <= k < |h| ==> h[k] in HexDigits
  {
    HexBytes(oid)
  }
}
