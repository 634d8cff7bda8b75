/** The few .NET base-library behaviours the modelled code relies on. */
module DotNet {
  import opened Wrappers

  /** The exceptions the modelled code can raise. */
  datatype Exception =
    | NullReferenceException
    | ArgumentException(message: string)
    | InvalidOperationException(message: string)

  /** `char.IsWhiteSpace`: the Unicode space, line and paragraph separators plus the control
      characters U+0009 to U+000D and U+0085. */
  predicate IsWhiteSpace(c: char) {
    || ('\U{0009}' <= c <= '\U{000D}')
    || c == '\U{0020}' || c == '\U{0085}' || c == '\U{00A0}' || c == '\U{1680}'
    || ('\U{2000}' <= c <= '\U{200A}')
    || c == '\U{2028}' || c == '\U{2029}' || c == '\U{202F}' || c == '\U{205F}' || c == '\U{3000}'
  }

  /** `string.IsNullOrEmpty`. */
  predicate IsNullOrEmpty(s: Option<string>) {
    s.None? || |s.value| == 0
  }

  /** `string.IsNullOrWhiteSpace`: null, or every character is white space (so also empty). */
  predicate IsNullOrWhiteSpace(s: Option<string>)
  {
    s.None? || forall i :: 0 <= i < |s.value| ==> IsWhiteSpace(s.value[i])
  }
}
