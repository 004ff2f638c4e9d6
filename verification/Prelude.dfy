/** Types shared by every part of the model. */
module Prelude {
  newtype byte = x: int | 0 <= x < 256

  type Bytes = seq<byte>

  datatype Option<+T> = None | Some(value: T)

  datatype Result<+T, +E> = Ok(value: T) | Err(error: E)

  predicate IsLowerHex(c: char) {
    '0' <= c <= '9' || 'a' <= c <= 'f'
  }

  /** The pattern every SHA-256 field of the repository's models must match. */
  predicate IsSha256(s: string) {
    |s| == 64 && forall i | 0 <= i < |s| :: IsLowerHex(s[i])
  }

  lemma Sha256Exactly(s: string)
    ensures IsSha256(s) <==> |s| == 64 && forall c | c in s :: c in "0123456789abcdef"
  {
    assert forall c :: IsLowerHex(c) <==> c in "0123456789abcdef";
    if IsSha256(s) {
      assert forall c | c in s :: exists i :: 0 <= i < |s| && s[i] == c;
    }
  }
}
