/** Small value types shared by every part of the gateway model. */
module Common {

  /** Go's "pointer or nil", "value or missing map key". */
  datatype Option<T> = None | Some(value: T)

  /** Go's "(value, error)" pairs where exactly one side is meaningful. */
  datatype Result<T, E> = Ok(value: T) | Err(error: E)

  /** One byte of a broker payload. */
  newtype Byte = b: int | 0 <= b < 256

  /** A raw frame (a JPEG image) as published by a device. */
  type Frame = seq<Byte>

  /** `s` begins with `p`. */
  predicate HasPrefix(s: string, p: string)
  {
    |p| <= |s| && s[..|p|] == p
  }

  /** `s` ends with `p`. */
  predicate HasSuffix(s: string, p: string)
  {
    |p| <= |s| && s[|s| - |p|..] == p
  }

  /** Go's prefix trim: removes one leading `p`, if there is one. */
  function TrimPrefix(s: string, p: string): (r: string)
    ensures HasPrefix(s, p) ==> s == p + r
    ensures !HasPrefix(s, p) ==> r == s
  {
    if HasPrefix(s, p) then s[|p|..] else s
  }
}
