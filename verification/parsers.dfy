/** Result parsers (redstar/parsers.py). The regular-expression engine is
    not modelled: a `RegexParser` carries the compiled pattern's search,
    which yields the first capture group of the first match, if any. */
module Parsers {
  import opened Types
  import opened Text

  datatype Parser = RegexParser(search: string -> Option<string>)

  /** `parser.parse(text)`: the first capture group, or `''` when the
      pattern does not match. */
  function Parse(p: Parser, text: string): (r: string)
    ensures p.search(text).None? ==> r == ""
    ensures p.search(text).Some? ==> r == p.search(text).value
  {
    match p.search(text)
    case None => ""
    case Some(capture) => capture
  }

  /** The pattern's capture group is `(\d+)`: every capture is a non-empty
      run of decimal digits. */
  ghost predicate CapturesDigits(p: Parser) {
    forall text :: p.search(text).Some? ==> p.search(text).value != [] && AllDigits(p.search(text).value)
  }
}

