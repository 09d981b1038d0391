/**
 * The collaborators the engine calls but whose behaviour is not part of this model:
 * Python's regular-expression engine, its Unicode database and `ipaddress`.  Each is a value
 * holding functions, passed to the operations that use it, so every property
 * proved below holds for every engine and every library.
 */
module Oracles {
  import opened Wrappers

  /**
   * Python's `re` as the engine uses it.
   *  - `compiles(p)`: pattern `p` compiles; a pattern that does not raises on every use.
   *  - `findall(p, t)`: the matches of `re.findall(p, t)`, each as the text the
   *    source keeps (a match with groups is its non-empty groups joined by a space).
   *  - `anchors(t)`: the `(href, display)` pairs of the anchor-tag pattern.
   *  - `displayDomain(d)`: group 2 of the domain search on `html.unescape(d)`, if it matches.
   */
  datatype Engine = Engine(
    compiles: string -> bool,
    findall: (string, string) -> seq<string>,
    anchors: string -> seq<(string, string)>,
    displayDomain: string -> Option<string>)
  {
    /** `re.search(p, t)` succeeds: none of the engine's patterns matches the empty string. */
    predicate Search(pattern: string, text: string) {
      |findall(pattern, text)| > 0
    }
  }

  /** What `ipaddress.ip_address(s)` makes of `s`: an IPv4 or an IPv6 address, or `ValueError`. */
  datatype IpAddress = IPv4 | IPv6 | NotAnAddress

  /**
   * What the engine reads from Python's standard library besides `re`.
   *  - `nfkc`: `unicodedata.normalize('NFKC', s)` (Unicode Standard Annex #15).
   *  - `blockName(ch)`: the first word of `unicodedata.name(ch)`, `None` where that raises.
   *  - `isWordChar`: membership in the regular-expression class `\w`.
   *  - `isDigit`: `str.isdigit` on one character.
   *  - `ipAddress`: `ipaddress.ip_address`, which `urllib.parse` calls on a bracketed host.
   */
  datatype Stdlib = Stdlib(
    nfkc: string -> string,
    blockName: char -> Option<string>,
    isWordChar: char -> bool,
    isDigit: char -> bool,
    ipAddress: string -> IpAddress)
}
