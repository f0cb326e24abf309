/** Small generic datatypes shared by every module. */
module Prelude {

  datatype Option<+T> = None | Some(value: T)

  /** An operation either yields a value or raises; a raise never changes state unless a contract says so. */
  datatype Result<+T, +E> = Ok(value: T) | Error(error: E)

  /** `btrim(text) = ''` in SQL: nothing but spaces. */
  predicate Blank(s: string) {
    forall i | 0 <= i < |s| :: s[i] == ' '
  }

  const WHITE := {' ', '\t', '\n', '\r', '\U{000B}', '\U{000C}', '\U{001C}', '\U{001D}', '\U{001E}', '\U{001F}'}

  /** `not text.strip()` in Python, on ASCII text: nothing but white space. */
  predicate White(s: string) { forall i | 0 <= i < |s| :: s[i] in WHITE }

  function Last<T>(s: seq<T>): T
    requires |s| > 0
  {
    s[|s| - 1]
  }

  function Front<T>(s: seq<T>): seq<T>
    requires |s| > 0
  {
    s[..|s| - 1]
  }
}
