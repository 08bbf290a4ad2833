/** Text as str.strip sees it. */
module Text {
  predicate Whitespace(c: char) {
    c in " \t\n\r\U{b}\U{c}\U{1c}\U{1d}\U{1e}\U{1f}\U{85}\U{a0}\U{1680}\U{2028}\U{2029}\U{202f}\U{205f}\U{3000}"
    || '\U{2000}' <= c <= '\U{200a}'
  }

  /** Nothing is left of it once stripped. */
  predicate Blank(s: string) {
    forall c | c in s :: Whitespace(c)
  }
}
