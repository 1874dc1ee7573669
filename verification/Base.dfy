/** Vocabulary shared by every part of the model. */
module Base {
  datatype Option<+T> = None | Some(value: T)

  /** UUIDv7 identifiers. They are handed out in creation order, which is also their text order. */
  type Id = nat

  /** UTC instants. IsoTime shows that comparing their stored text is comparing these numbers. */
  type Time = nat

  newtype byte = b: int | 0 <= b < 0x100

  type Bytes = seq<byte>

  /** An ideal hash: a digest determines the bytes it was computed from. */
  datatype Sha256 = Sha256(preimage: Bytes)

  predicate Distinct<T(==)>(s: seq<T>) {
    forall i, j | 0 <= i < j < |s| :: s[i] != s[j]
  }

  /** The characters that Python's str.isspace, str.strip and str.split treat as white space. */
  predicate IsSpace(c: char) {
    || '\t' <= c <= '\r'
    || '\U{1C}' <= c <= ' '
    || c in {'\U{85}', '\U{A0}', '\U{1680}', '\U{2028}', '\U{2029}', '\U{202F}', '\U{205F}', '\U{3000}'}
    || '\U{2000}' <= c <= '\U{200A}'
  }

  predicate Blank(s: string) {
    forall i | 0 <= i < |s| :: IsSpace(s[i])
  }
}
