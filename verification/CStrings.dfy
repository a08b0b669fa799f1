/** Strings in memory, as C has them. */
module CStrings {
  /** What ends a string. */
  const NUL: char := 0 as char
}
