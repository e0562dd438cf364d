/** Chains of conversions between formats, for any converter of bodies. */
module Chains {
  import opened Seqs
  import opened StreamFormats

  /** A converter: body, source format, target format. */
  type Converter = (string, Format, Format) -> Option<string>

  /** Convert through the formats of a path, one after the other. */
  function Chain(convert: Converter, body: string, from: Format, path: seq<Format>): Option<string>
    decreases |path|
  {
    if path == [] then Some(body)
    else
      match convert(body, from, path[0])
      case None => None
      case Some(next) => Chain(convert, next, path[0], path[1..])
  }

  function Last(from: Format, path: seq<Format>): Format {
    if path == [] then from else path[|path| - 1]
  }

  /** Every conversion into one of the formats keeps what `meaning` sees. */
  ghost predicate Keeps<M>(convert: Converter, meaning: (Format, string) -> M, into: Format -> bool) {
    forall body, from, to {:trigger convert(body, from, to)} ::
      into(to) && convert(body, from, to).Some?
      ==> meaning(to, convert(body, from, to).value) == meaning(from, body)
  }

  lemma {:induction false} ChainKeeps<M>(convert: Converter, meaning: (Format, string) -> M, into: Format -> bool,
                                         body: string, from: Format, path: seq<Format>)
    requires Keeps(convert, meaning, into) && forall f | f in path :: into(f)
    requires Chain(convert, body, from, path).Some?
    ensures meaning(Last(from, path), Chain(convert, body, from, path).value) == meaning(from, body)
    decreases |path|
  {
    if path != [] {
      ChainKeeps(convert, meaning, into, convert(body, from, path[0]).value, path[0], path[1..]);
    }
  }

  /** `good` bodies convert to good bodies, into every format. */
  ghost predicate StaysGood(convert: Converter, good: (Format, string) -> bool) {
    forall body, from, to {:trigger convert(body, from, to)} ::
      good(from, body) ==> convert(body, from, to).Some? && good(to, convert(body, from, to).value)
  }

  lemma {:induction false} ChainStaysGood(convert: Converter, good: (Format, string) -> bool,
                                          body: string, from: Format, path: seq<Format>)
    requires StaysGood(convert, good) && good(from, body)
    ensures Chain(convert, body, from, path).Some?
    ensures good(Last(from, path), Chain(convert, body, from, path).value)
    decreases |path|
  {
    if path != [] {
      ChainStaysGood(convert, good, convert(body, from, path[0]).value, path[0], path[1..]);
    }
  }
}
