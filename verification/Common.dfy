/** Datatypes shared by every module of the project. */
module Common {

  datatype Option<+T> = None | Some(value: T)
}

/** The parts of JavaScript strings that the models read. */
module Text {

  predicate IsWhitespace(c: char) {
    var n := c as int;
    || 9 <= n <= 13 || n == 32 || n == 0xA0 || n == 0x1680 || 0x2000 <= n <= 0x200A || n == 0x2028 || n == 0x2029
    || n == 0x202F || n == 0x205F || n == 0x3000 || n == 0xFEFF
  }

  /** `s.trim().length === 0` */
  predicate IsBlank(s: string) {
    forall i | 0 <= i < |s| :: IsWhitespace(s[i])
  }

  predicate IsControlChar(c: char) {
    c as int < 32 || c as int == 127
  }

  /** Non-empty, within a length, trimmed, and free of control characters. */
  predicate IsBoundedText(s: string, limit: nat) {
    && 0 < |s| <= limit
    && !IsWhitespace(s[0])
    && !IsWhitespace(s[|s| - 1])
    && forall i | 0 <= i < |s| :: !IsControlChar(s[i])
  }
}
