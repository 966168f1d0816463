/** Small value types and text rules shared by the models. */
module Values {

  datatype Option<+T> = None | Some(value: T)

  /** White space in the sense of Python's `str.strip`. */
  predicate IsSpace(c: char) {
    || '\U{0009}' <= c <= '\U{000D}' || '\U{001C}' <= c <= '\U{0020}' || '\U{2000}' <= c <= '\U{200A}'
    || c in {'\U{0085}', '\U{00A0}', '\U{1680}', '\U{2028}', '\U{2029}', '\U{202F}', '\U{205F}', '\U{3000}'}
  }

  /** What `strip` leaves nothing of. */
  predicate Blank(text: string) {
    forall c | c in text :: IsSpace(c)
  }
}
