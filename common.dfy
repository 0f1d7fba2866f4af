/** Small shared vocabulary: an optional value and raw byte payloads. */
module Common {

  /** The conventional Some/None datatype. */
  datatype Option<T> = None | Some(value: T)

  /** One octet of a payload. */
  newtype byte = x: int | 0 <= x < 256

  /** A raw payload, as stored by the cache and returned by the network. */
  type Bytes = seq<byte>
}
