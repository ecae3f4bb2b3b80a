/** The text tests shared by the validators: Rust's `trim().is_empty()`, `len()` in bytes and
    `char::is_control`. */
module TextRules {
  import opened Wrappers

  /** The characters of Unicode's White_Space property. */
  predicate IsWhitespace(c: char) {
    var n := c as int;
    || 0x9 <= n <= 0xD || n == 0x20 || n == 0x85 || n == 0xA0 || n == 0x1680
    || 0x2000 <= n <= 0x200A || n == 0x2028 || n == 0x2029 || n == 0x202F || n == 0x205F || n == 0x3000
  }

  predicate IsControl(c: char) {
    var n := c as int;
    n < 0x20 || 0x7F <= n < 0xA0
  }

  predicate Blank(text: string) { forall c :: c in text ==> IsWhitespace(c) }

  predicate HasControl(text: string) { exists c :: c in text && IsControl(c) }

  function ByteWidth(c: char): nat {
    var n := c as int;
    if n < 0x80 then 1 else if n < 0x800 then 2 else if n < 0x10000 then 3 else 4
  }

  /** Length in bytes of the UTF-8 form. */
  function ByteLength(text: string): nat {
    if text == [] then 0 else ByteWidth(text[0]) + ByteLength(text[1..])
  }

  predicate Fits(text: Option<string>, limit: nat) { text.Some? ==> ByteLength(text.value) <= limit }

  predicate NoneOrBlank(text: Option<string>) { text.Some? ==> Blank(text.value) }
}
