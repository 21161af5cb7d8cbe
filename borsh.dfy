/**
 * The Borsh encoding of the program's two record types. `UserWallet { balance: u64 }`
 * and `PoolWallet { total_balance: u64 }` each hold one `u64`, and Borsh writes a
 * struct as its fields in order and a `u64` as 8 little-endian bytes, so both records
 * share one 8-byte layout. `try_from_slice` fails unless it consumes the whole slice,
 * so decoding succeeds exactly on 8-byte buffers.
 */
module Borsh {
  import opened Bytes
  import opened Wrappers

  /** Width of an encoded record. */
  const RecordSize: nat := 8

  /** `try_to_vec` of a record holding `v`. */
  function Encode(v: u64): (r: Bytes)
    ensures |r| == RecordSize
  {
    ToLe(v, RecordSize)
  }

  /** `try_from_slice` of a record: the whole buffer must be the 8 bytes of one `u64`. */
  function Decode(b: Bytes): (r: Option<u64>)
    ensures r.Some? <==> |b| == RecordSize
  {
    if |b| == RecordSize then
      Pow256Eight();
      Some(FromLe(b))
    else
      None
  }

  /** Round trip: a record decodes from its own encoding. */
  lemma DecodeEncode(v: u64)
    ensures Decode(Encode(v)) == Some(v)
  {
    Pow256Eight();
    FromLeToLe(v, RecordSize);
  }

  /** Round trip the other way: a buffer that decodes is the encoding of what it decodes to. */
  lemma EncodeDecode(b: Bytes)
    requires Decode(b).Some?
    ensures Encode(Decode(b).value) == b
  {
    ToLeFromLe(b);
  }

  /** Distinct records have distinct encodings. */
  lemma EncodeInjective(v: u64, w: u64)
    requires Encode(v) == Encode(w)
    ensures v == w
  {
    DecodeEncode(v);
    DecodeEncode(w);
  }
}
