/**
 * `urllib.parse.urlparse` as the URL checks use it: the generic split of a URL into
 * scheme, `//` authority (the netloc), path, `;` parameters, `?` query and `#`
 * fragment (section 3 of RFC 3986), with Python's own rules for which prefix counts
 * as a scheme, where the netloc ends and when parameters are split off.
 *
 * Each optional component is an `Option`, so that a present-but-empty component is
 * told apart from an absent one and the split can be undone exactly (`UnsplitSplit`).
 * Python reports an absent component as the empty string: see `NetlocText` etc.
 * The scheme is kept as written, where `urlsplit` lowercases it; its one reader here,
 * `PathAndParams`, lowercases it first, so no result of the checks depends on that.
 *
 * The checks on the netloc follow Python 3.11.4 and later 3.12 releases: unbalanced
 * brackets, the text between the first '[' and the next ']' (`_check_bracketed_host`),
 * and the NFKC test of a non-ASCII netloc (`_checknetloc`).
 */
module UrlParse {
  import opened Wrappers
  import opened Strings
  import opened Oracles

  datatype Parts = Parts(
    scheme: Option<string>,
    netloc: Option<string>,
    path: string,
    params: Option<string>,
    query: Option<string>,
    fragment: Option<string>)
  {
    /** `parsed.netloc`. */
    function NetlocText(): string { netloc.GetOr("") }
    /** `parsed.query`. */
    function QueryText(): string { query.GetOr("") }
  }

  /** The only failure `urlparse` reports: `ValueError`. */
  datatype Parsed = Ok(parts: Parts) | Invalid

  // ------------------------------------------------------------- helpers

  /** Index of the first character of `s` that is in `stops`, or `|s|`. */
  function FirstOf(s: string, stops: string): (k: nat)
    ensures k <= |s|
    ensures k < |s| ==> s[k] in stops
    ensures forall j :: 0 <= j < k ==> s[j] !in stops
    decreases |s|
  {
    if s == [] then 0
    else if s[0] in stops then 0
    else 1 + FirstOf(s[1..], stops)
  }

  /** No stop character occurs before the first one. */
  lemma BeforeFirstOf(s: string, stops: string, c: char)
    requires c in stops
    ensures c !in s[..FirstOf(s, stops)]
  {
  }

  /** Index just after the last `c` in `s`, or 0 when there is none. */
  function AfterLast(s: string, c: char): (k: nat)
    ensures k <= |s|
    ensures k > 0 ==> s[k - 1] == c
    ensures forall j :: k <= j < |s| ==> s[j] != c
    decreases |s|
  {
    if s == [] then 0
    else if s[|s| - 1] == c then |s|
    else AfterLast(s[..|s| - 1], c)
  }

  predicate IsAsciiLetter(c: char) { 'a' <= c <= 'z' || 'A' <= c <= 'Z' }

  /** `urllib.parse.scheme_chars`. */
  predicate IsSchemeChar(c: char) {
    IsAsciiLetter(c) || '0' <= c <= '9' || c == '+' || c == '-' || c == '.'
  }

  /** The schemes of `urllib.parse.uses_params`, lowercased; `""` is one of them. */
  const UsesParams: seq<string> :=
    ["", "ftp", "hdl", "prospero", "http", "imap", "https", "shttp", "rtsp", "rtsps",
     "rtspu", "sip", "sips", "mms", "sftp", "tel"]

  // ------------------------------------------------------- sanitising

  /** `url.lstrip(_WHATWG_C0_CONTROL_OR_SPACE)`. */
  function LeadingTrimmed(url: string): string
    decreases |url|
  {
    if url != [] && url[0] as int <= 32 then LeadingTrimmed(url[1..]) else url
  }

  /** The tab, carriage return and newline characters that `urlsplit` deletes everywhere. */
  predicate IsUnsafe(c: char) { c == '\t' || c == '\r' || c == '\n' }

  /** `s` with every character of `cs` deleted, as repeated `s.replace(c, "")` does. */
  function Deleted(s: string, cs: string): (r: string)
    ensures forall i :: 0 <= i < |r| ==> r[i] !in cs
    decreases |s|
  {
    if s == [] then []
    else (if s[0] in cs then [] else [s[0]]) + Deleted(s[1..], cs)
  }

  /** A text holding no character of `cs` is left as it is. */
  lemma {:induction false} DeletedNothing(s: string, cs: string)
    requires forall i :: 0 <= i < |s| ==> s[i] !in cs
    ensures Deleted(s, cs) == s
    decreases |s|
  {
    if s != [] {
      DeletedNothing(s[1..], cs);
      assert [s[0]] + s[1..] == s;
    }
  }

  function WithoutUnsafe(url: string): (r: string)
    ensures forall i :: 0 <= i < |r| ==> !IsUnsafe(r[i])
  {
    Deleted(url, "\t\r\n")
  }

  /** What `urlsplit` does to its input before splitting it. */
  function Sanitized(url: string): string {
    WithoutUnsafe(LeadingTrimmed(url))
  }

  // ----------------------------------------------------------- the split

  /** The scheme prefix: text before the first ':', all scheme characters, starting with a letter. */
  predicate HasScheme(url: string) {
    var i := FirstOf(url, ":");
    0 < i < |url| && IsAsciiLetter(url[0]) && forall j :: 0 <= j < i ==> IsSchemeChar(url[j])
  }

  /** The text of an optional component with its delimiter, or nothing when absent. */
  function Delimited(delimiter: string, o: Option<string>): string {
    match o
    case Some(x) => delimiter + x
    case None => ""
  }

  /** Every character of `part` occurs in `whole`. */
  predicate CharsFrom(part: string, whole: string) {
    forall c :: c in part ==> c in whole
  }

  lemma SliceChars(s: string, i: nat, j: nat)
    requires i <= j <= |s|
    ensures CharsFrom(s[i..j], s)
  {
    forall c | c in s[i..j]
      ensures c in s
    {
      var k :| i <= k < j && s[k] == c;
    }
  }

  /** The scheme, and the rest after its ':'. */
  function SplitScheme(url: string): (r: (Option<string>, string))
    ensures Delimited("", r.0) + (if r.0.Some? then ":" else "") + r.1 == url
    ensures CharsFrom(r.0.GetOr(""), url) && CharsFrom(r.1, url)
  {
    if HasScheme(url) then
      var i := FirstOf(url, ":");
      var scheme, rest := url[..i], url[i + 1..];
      assert Delimited("", Some(scheme)) == scheme;
      assert scheme + ":" + rest == url;
      assert CharsFrom(scheme, url) && CharsFrom(rest, url) by {
        SliceChars(url, 0, i);
        SliceChars(url, i + 1, |url|);
      }
      (Some(scheme), rest)
    else (None, url)
  }

  /** The netloc after a leading "//", up to the first '/', '?' or '#'; and what follows it. */
  function SplitNetloc(rest: string): (r: (Option<string>, string))
    ensures Delimited("//", r.0) + r.1 == rest
    ensures CharsFrom(r.0.GetOr(""), rest) && CharsFrom(r.1, rest)
    ensures var n := r.0.GetOr(""); '/' !in n && '?' !in n && '#' !in n
  {
    if StartsWith(rest, "//") then
      var n := FirstOf(rest[2..], "/?#");
      var netloc, tail := rest[2..2 + n], rest[2 + n..];
      assert Delimited("//", Some(netloc)) == "//" + netloc;
      assert "//" + netloc + tail == rest;
      assert CharsFrom(netloc, rest) && CharsFrom(tail, rest) by {
        SliceChars(rest, 2, 2 + n);
        SliceChars(rest, 2 + n, |rest|);
      }
      assert '/' !in netloc && '?' !in netloc && '#' !in netloc by {
        assert netloc == rest[2..][..n];
        BeforeFirstOf(rest[2..], "/?#", '/');
        BeforeFirstOf(rest[2..], "/?#", '?');
        BeforeFirstOf(rest[2..], "/?#", '#');
      }
      (Some(netloc), tail)
    else (None, rest)
  }

  /** The text before the first `delimiter`, and the text after it when there is one. */
  function SplitAt(s: string, delimiter: char): (r: (string, Option<string>))
    ensures r.0 + Delimited([delimiter], r.1) == s
    ensures CharsFrom(r.0, s) && CharsFrom(r.1.GetOr(""), s)
  {
    var k := FirstOf(s, [delimiter]);
    if k < |s| then
      var head, tail := s[..k], s[k + 1..];
      assert Delimited([delimiter], Some(tail)) == [delimiter] + tail;
      assert head + [delimiter] + tail == s;
      assert CharsFrom(head, s) && CharsFrom(tail, s) by {
        SliceChars(s, 0, k);
        SliceChars(s, k + 1, |s|);
      }
      (head, Some(tail))
    else (s, None)
  }

  /** `_splitparams`: the parameters follow the first ';' after the last '/'. */
  function SplitParams(path: string): (r: (string, Option<string>))
    ensures r.0 + Delimited(";", r.1) == path
    ensures CharsFrom(r.0, path)
  {
    var from := AfterLast(path, '/');
    var k := from + FirstOf(path[from..], ";");
    if k < |path| then
      var head, params := path[..k], path[k + 1..];
      assert Delimited(";", Some(params)) == ";" + params;
      assert head + ";" + params == path;
      assert CharsFrom(head, path) by {
        SliceChars(path, 0, k);
      }
      (head, Some(params))
    else (path, None)
  }

  /** The split proper, on a sanitised URL. */
  function SplitComponents(url: string): Parts {
    var (scheme, rest) := SplitScheme(url);
    var (netloc, afterNetloc) := SplitNetloc(rest);
    var (beforeFragment, fragment) := SplitAt(afterNetloc, '#');
    var (path, query) := SplitAt(beforeFragment, '?');
    var (p, params) := PathAndParams(scheme, path);
    Parts(scheme, netloc, p, params, query, fragment)
  }

  /** Parameters are split off only for the schemes of `uses_params`, and only when there is a ';'. */
  function PathAndParams(scheme: Option<string>, path: string): (r: (string, Option<string>))
    ensures r.0 + Delimited(";", r.1) == path
    ensures CharsFrom(r.0, path)
  {
    if Lower(scheme.GetOr("")) in UsesParams && ';' in path then SplitParams(path) else (path, None)
  }

  // ------------------------------------------------------ netloc checks

  /** A netloc with a '[' and no ']', or the other way round, makes `urlsplit` raise. */
  predicate UnbalancedBrackets(netloc: string) {
    ('[' in netloc && ']' !in netloc) || (']' in netloc && '[' !in netloc)
  }

  /** `netloc.partition('[')[2].partition(']')[0]`: the text after the first '[' up to the next ']'. */
  function BracketedHost(netloc: string): string {
    SplitAt(SplitAt(netloc, '[').1.GetOr(""), ']').0
  }

  predicate IsHexDigit(c: char) { '0' <= c <= '9' || 'a' <= c <= 'f' || 'A' <= c <= 'F' }

  /** `\Av[a-fA-F0-9]+\..+\Z`: an IPvFuture literal (section 3.2.2 of RFC 3986). */
  predicate IsIpvFuture(h: string) {
    exists k :: 2 <= k && k + 1 < |h| && h[k] == '.' && h[0] == 'v'
      && (forall j :: 1 <= j < k ==> IsHexDigit(h[j]))
      && (forall j :: k < j < |h| ==> h[j] != '\n')
  }

  /** `_check_bracketed_host`: an IPvFuture literal when it starts with 'v', otherwise an IPv6 address. */
  predicate BracketedHostValid(lib: Stdlib, host: string) {
    if StartsWith(host, "v") then IsIpvFuture(host) else lib.ipAddress(host) == IPv6
  }

  /**
   * `_checknetloc`: a non-ASCII netloc, once '@', ':', '#' and '?' are deleted, whose NFKC
   * form differs and holds one of '/', '?', '#', '@' or ':'.
   */
  predicate NfkcBreaksNetloc(nfkc: string -> string, netloc: string) {
    netloc != "" && !IsAscii(netloc)
    && var n := Deleted(netloc, "@:#?");
       var normal := nfkc(n);
       normal != n && ('/' in normal || '?' in normal || '#' in normal || '@' in normal || ':' in normal)
  }

  /** The netlocs on which `urlsplit` raises `ValueError`. */
  predicate NetlocRaises(lib: Stdlib, netloc: string) {
    UnbalancedBrackets(netloc)
    || ('[' in netloc && ']' in netloc && !BracketedHostValid(lib, BracketedHost(netloc)))
    || NfkcBreaksNetloc(lib.nfkc, netloc)
  }

  /** `urlparse(url)`. */
  function Parse(lib: Stdlib, url: string): Parsed {
    var parts := SplitComponents(Sanitized(url));
    if NetlocRaises(lib, parts.NetlocText()) then Invalid else Ok(parts)
  }

  /** Reassembling the components: the inverse of the split. */
  function Unsplit(p: Parts): string {
    Delimited("", p.scheme) + (if p.scheme.Some? then ":" else "")
    + (Delimited("//", p.netloc)
       + (((p.path + Delimited(";", p.params)) + Delimited("?", p.query)) + Delimited("#", p.fragment)))
  }

  /** `netloc or path.split('/')[0]`: the host the IP and homograph checks look at. */
  function Host(p: Parts): (h: string)
    ensures p.NetlocText() != "" ==> h == p.NetlocText()
    ensures p.NetlocText() == "" ==> '/' !in h && StartsWith(p.path, h)
  {
    if p.NetlocText() != "" then p.NetlocText()
    else
      var k := FirstOf(p.path, "/");
      SplitHead(p.path, k);
      p.path[..k]
  }

  // -------------------------------------------------------------- lemmas

  lemma SplitHead(s: string, k: nat)
    requires k == FirstOf(s, "/")
    ensures Split(s, '/')[0] == s[..k]
    decreases |s|
  {
    if s != [] && s[0] != '/' {
      SplitHead(s[1..], k - 1);
      assert s[..k] == [s[0]] + s[1..][..k - 1];
    }
  }

  /** Splitting then reassembling gives the sanitised URL back: no character is lost or invented. */
  lemma UnsplitSplit(url: string)
    ensures Unsplit(SplitComponents(url)) == url
  {
    var s := SplitScheme(url);
    var n := SplitNetloc(s.1);
    var f := SplitAt(n.1, '#');
    var q := SplitAt(f.0, '?');
    var pp := PathAndParams(s.0, q.0);
    var colon := if s.0.Some? then ":" else "";
    assert SplitComponents(url) == Parts(s.0, n.0, pp.0, pp.1, q.1, f.1);
    calc {
      Unsplit(SplitComponents(url));
      Delimited("", s.0) + colon
        + (Delimited("//", n.0) + (((pp.0 + Delimited(";", pp.1)) + Delimited("?", q.1)) + Delimited("#", f.1)));
      Delimited("", s.0) + colon + (Delimited("//", n.0) + ((q.0 + Delimited("?", q.1)) + Delimited("#", f.1)));
      Delimited("", s.0) + colon + (Delimited("//", n.0) + (f.0 + Delimited("#", f.1)));
      Delimited("", s.0) + colon + (Delimited("//", n.0) + n.1);
      Delimited("", s.0) + colon + s.1;
      url;
    }
  }

  /** A parsed URL reassembles to its sanitised text. */
  lemma ParseRoundTrip(lib: Stdlib, url: string)
    requires Parse(lib, url).Ok?
    ensures Unsplit(Parse(lib, url).parts) == Sanitized(url)
  {
    UnsplitSplit(Sanitized(url));
  }

  /** A netloc ends at the first '/', '?' or '#', so it never holds one of them. */
  lemma NetlocHasNoDelimiter(url: string)
    ensures var n := SplitComponents(url).NetlocText();
      '/' !in n && '?' !in n && '#' !in n
  {
  }

  /** After sanitising, the host holds no newline, so an anchored match on it cannot stop before a final newline. */
  lemma SanitizedHostHasNoNewline(lib: Stdlib, url: string)
    requires Parse(lib, url).Ok?
    ensures '\n' !in Host(Parse(lib, url).parts)
  {
    var s := Sanitized(url);
    var (scheme, rest) := SplitScheme(s);
    var (netloc, afterNetloc) := SplitNetloc(rest);
    var (beforeFragment, fragment) := SplitAt(afterNetloc, '#');
    var (path, query) := SplitAt(beforeFragment, '?');
    assert '\n' !in s;
  }

  /** An ASCII netloc, the empty one included, passes the NFKC test whatever the database says. */
  lemma AsciiNetlocPassesNfkc(nfkc: string -> string, netloc: string)
    requires IsAscii(netloc)
    ensures !NfkcBreaksNetloc(nfkc, netloc)
  {
  }

  /** A netloc without brackets that passes the NFKC test never makes the parse raise. */
  lemma PlainNetlocParses(lib: Stdlib, netloc: string)
    requires '[' !in netloc && ']' !in netloc && !NfkcBreaksNetloc(lib.nfkc, netloc)
    ensures !NetlocRaises(lib, netloc)
  {
  }

  /**
   * A netloc holding a fullwidth colon (U+FF1A), which NFKC turns into ':', makes the parse raise:
   * `a\U{FF1A}b.com` is refused by a database that normalises it to `a:b.com`.
   */
  lemma FullwidthColonRaises(lib: Stdlib, netloc: string)
    requires netloc == "a\U{FF1A}b.com" && lib.nfkc(netloc) == "a:b.com"
    ensures NetlocRaises(lib, netloc)
  {
    assert netloc[1] as int >= 128;
    DeletedNothing(netloc, "@:#?");
    assert ':' in lib.nfkc(netloc) by {
      assert "a:b.com"[1] == ':';
    }
  }

  /** A bracketed host that is neither an IPvFuture literal nor an IPv6 address makes the parse raise. */
  lemma BracketedNameRaises(lib: Stdlib, netloc: string)
    requires netloc == "[x].tk" && lib.ipAddress("x") == NotAnAddress
    ensures NetlocRaises(lib, netloc)
  {
    BracketedNameText(netloc);
    BracketedOneChar(netloc);
    assert [netloc[1]] == "x";
  }

  lemma BracketedNameText(netloc: string)
    requires netloc == "[x].tk"
    ensures |netloc| >= 3 && netloc[0] == '[' && netloc[1] == 'x' && netloc[2] == ']'
  {
  }

  /** In a netloc that starts with one character between brackets, that character is the bracketed host. */
  lemma BracketedOneChar(netloc: string)
    requires |netloc| >= 3 && netloc[0] == '[' && netloc[1] != ']' && netloc[2] == ']'
    ensures BracketedHost(netloc) == [netloc[1]]
  {
    var after := netloc[1..];
    FirstOfAt(netloc, "[", 0);
    assert SplitAt(netloc, '[').1 == Some(after);
    FirstOfAt(after, "]", 1);
    assert SplitAt(after, ']').0 == after[..1];
  }

  lemma {:induction false} FirstOfAt(s: string, stops: string, k: nat)
    requires k <= |s| && (k < |s| ==> s[k] in stops)
    requires forall j :: 0 <= j < k ==> s[j] !in stops
    ensures FirstOf(s, stops) == k
    decreases k
  {
    if k > 0 {
      FirstOfAt(s[1..], stops, k - 1);
    }
  }
}
