// The loader's shared state (automata/src/loader/mod.rs): the default names,
// the alias spellings of the section and function names, and the `Context`
// that pairs the source text with the diagnostics log.

module LoaderContext {
  import opened Common
  import opened Log

  const INITIAL_STATE := "q0"
  const INITIAL_STACK := "z0"
  const BLANK_SYMBOL := "B"

  /** Spellings read as epsilon: the word, `~`, and the Unicode epsilons. */
  const EPSILON_ALIASES: seq<string> := [
    "epsilon", "~", "\U{190}", "\U{3B5}", "\U{3F5}", "\U{1D6C6}", "\U{1D6DC}", "\U{1D700}",
    "\U{1D716}", "\U{1D73A}", "\U{1D750}", "\U{1D774}", "\U{1D78A}", "\U{1D7AE}", "\U{1D7C4}", "\U{25B}"]

  /** Spellings of the transition function's name. */
  const DELTA_ALIASES: seq<string> := [
    "delta", "D", "d", "\U{1E9F}", "\U{3B4}", "\U{1D6C5}", "\U{1D6FF}", "\U{1D739}", "\U{1D773}", "\U{1D7AD}"]

  /** Spellings of the alphabet's name. */
  const SIGMA_ALIASES: seq<string> := [
    "E", "S", "sigma", "\U{3A3}", "\U{1D6BA}", "\U{1D6F4}", "\U{1D72E}", "\U{1D768}", "\U{1D7A2}", "\U{2211}"]

  /** Spellings of the stack alphabet's name. */
  const GAMMA_ALIASES: seq<string> := [
    "T", "G", "gamma", "\U{393}", "\U{2C84}", "\U{1D6AA}", "\U{1D6E4}", "\U{1D71E}", "\U{1D758}", "\U{1D792}"]

  const SIGMA_UPPER := "\U{3A3}"
  const GAMMA_UPPER := "\U{393}"
  const DELTA_LOWER := "\U{3B4}"

  class Context {
    const src: string
    const logs: Logs

    ghost predicate Valid()
      reads this, logs
    {
      logs.Valid()
    }

    constructor (src: string)
      ensures Valid() && this.src == src && fresh(logs)
      ensures logs.entries == [] && !logs.hasError
    {
      this.src := src;
      logs := new Logs();
    }

    /** The empty span just past the last byte of the source. */
    function Eof(): (r: Span)
      ensures r.start == r.end == Utf8Width(src)
    {
      EofSpan(Utf8Width(src))
    }

    function ContainsErrors(): (r: bool)
      reads this, logs
      requires Valid()
      ensures r <==> exists i :: 0 <= i < |logs.entries| && logs.entries[i].level == Error
    {
      logs.ContainsErrors()
    }
  }
}
