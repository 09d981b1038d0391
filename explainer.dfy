/**
 * Explainability: the highlighted HTML and the ordered risk-factor lines.
 *
 * Two versions of each exist.  `app/core/explainer.py` escapes the text and wraps
 * every whole-word, case-insensitive keyword match in one left-to-right pass,
 * longest keyword first; its risk factors print the urgency as a whole number and
 * list every model probability.  The older copy in `app/detector.py`, which the
 * detection route imports, replaces each keyword and its capitalized form as
 * plain substrings, prints the urgency as a float and reports only the
 * `logistic` and `nb` probabilities.
 */
module Explainer {
  import opened Wrappers
  import opened Strings
  import opened Oracles
  import opened Config
  import opened UrlExtract
  import opened Predictor

  // ---------------------------------------------------------- html.escape

  /** `html.escape` with `quote=True`, one character at a time. */
  function EscapeChar(c: char): string {
    if c == '&' then "&amp;"
    else if c == '<' then "&lt;"
    else if c == '>' then "&gt;"
    else if c == '"' then "&quot;"
    else if c == '\'' then "&#x27;"
    else [c]
  }

  predicate IsSpecial(c: char) {
    c == '&' || c == '<' || c == '>' || c == '"' || c == '\''
  }

  /** `html.escape(s)`: no markup character survives. */
  function Escape(s: string): (r: string)
    ensures '<' !in r && '>' !in r && '"' !in r
  {
    if s == [] then [] else EscapeChar(s[0]) + Escape(s[1..])
  }

  /** Text without any of the five special characters is left as it is. */
  lemma {:induction false} EscapePlain(s: string)
    requires forall i :: 0 <= i < |s| ==> !IsSpecial(s[i])
    ensures Escape(s) == s
  {
    if s != [] {
      EscapePlain(s[1..]);
      assert s == [s[0]] + s[1..];
    }
  }

  // ------------------------------------------------------------ the tags

  const OpenTag: string := "<" + HighlightTag + " class=\"" + HighlightClass + "\">"
  const CloseTag: string := "</" + HighlightTag + ">"

  /** `<span class="risk-high">m</span>`. */
  function Wrap(m: string): string {
    OpenTag + m + CloseTag
  }

  /** Deletes every opening and closing highlight tag, keeping everything else. */
  function DeleteTags(r: string): string
    decreases |r|
  {
    if r == [] then []
    else if StartsWith(r, OpenTag) then DeleteTags(r[|OpenTag|..])
    else if StartsWith(r, CloseTag) then DeleteTags(r[|CloseTag|..])
    else [r[0]] + DeleteTags(r[1..])
  }

  /** Text that does not begin with '<' begins with neither tag. */
  lemma NoTagAt(w: string)
    requires w != [] && w[0] != '<'
    ensures !StartsWith(w, OpenTag) && !StartsWith(w, CloseTag)
  {
    assert |OpenTag| > 0 && OpenTag[0] == '<' && |CloseTag| > 0 && CloseTag[0] == '<';
    assert |OpenTag| <= |w| ==> w[..|OpenTag|][0] == w[0];
    assert |CloseTag| <= |w| ==> w[..|CloseTag|][0] == w[0];
  }

  lemma {:induction false} DeletePlain(m: string, rest: string)
    requires '<' !in m
    ensures DeleteTags(m + rest) == m + DeleteTags(rest)
  {
    if m != [] {
      var w := m + rest;
      assert w[0] == m[0];
      NoTagAt(w);
      assert DeleteTags(w) == [w[0]] + DeleteTags(w[1..]);
      assert w[1..] == m[1..] + rest;
      assert '<' !in m[1..];
      DeletePlain(m[1..], rest);
      assert m == [m[0]] + m[1..];
    } else {
      assert m + rest == rest;
    }
  }

  /** Deleting the tags around a wrapped piece of tag-free text gives the piece back. */
  lemma DeleteWrap(m: string, rest: string)
    requires '<' !in m
    ensures DeleteTags(Wrap(m) + rest) == m + DeleteTags(rest)
  {
    var w := Wrap(m) + rest;
    assert w == OpenTag + (m + (CloseTag + rest));
    assert w[..|OpenTag|] == OpenTag;
    assert w[|OpenTag|..] == m + (CloseTag + rest);
    DeletePlain(m, CloseTag + rest);
    var c := CloseTag + rest;
    assert c[..|CloseTag|] == CloseTag;
    assert c[1] == '/' && OpenTag[1] == 's';
    assert c[|CloseTag|..] == rest;
  }

  // --------------------------------------------- highlight: the core copy

  /** Every keyword is longer than the one after it, or as long. */
  predicate LongestFirst(order: seq<string>) {
    forall i, j :: 0 <= i < j < |order| ==> |order[j]| <= |order[i]|
  }

  /**
   * Keyword `k` matches `s` at `i` under `\b(...)\b` with `re.IGNORECASE`: a
   * boundary before, the same letters up to ASCII case, and a boundary after.
   */
  predicate AltMatches(lib: Stdlib, s: string, i: nat, k: string) {
    i + |k| <= |s| && IsBoundary(lib, s, i) && Lower(s[i..i + |k|]) == Lower(k) && IsBoundary(lib, s, i + |k|)
  }

  /** The length of the first of `alts[j..]` that matches at `i`: the regex tries the alternatives in order. */
  function FirstAlt(lib: Stdlib, s: string, i: nat, alts: seq<string>, j: nat): (r: Option<nat>)
    requires j <= |alts| && forall a :: 0 <= a < |alts| ==> alts[a] != ""
    ensures r.Some? ==> 0 < r.value && i + r.value <= |s|
    decreases |alts| - j
  {
    if j == |alts| then None
    else if AltMatches(lib, s, i, alts[j]) then Some(|alts[j]|)
    else FirstAlt(lib, s, i, alts, j + 1)
  }

  /** `regex.sub(_repl, s[i..])`: each match wrapped verbatim, the scan resuming after it. */
  function SubFrom(lib: Stdlib, s: string, alts: seq<string>, i: nat): string
    requires i <= |s| && forall a :: 0 <= a < |alts| ==> alts[a] != ""
    decreases |s| - i
  {
    if i == |s| then []
    else
      match FirstAlt(lib, s, i, alts, 0)
      case Some(n) => Wrap(s[i..i + n]) + SubFrom(lib, s, alts, i + n)
      case None => [s[i]] + SubFrom(lib, s, alts, i + 1)
  }

  /** The non-empty keywords, without repeats. */
  function UniqueKeywords(keywords: seq<string>): set<string> {
    set k | k in keywords && k != ""
  }

  /**
   * `highlight_keywords` of `app/core/explainer.py`.  `order` is
   * `sorted(unique, key=len, reverse=True)`: the sort is stable, so keywords of
   * equal length keep the set's iteration order, which is why it is an input.
   */
  function Highlight(lib: Stdlib, text: string, keywords: seq<string>, order: seq<string>): string
    requires Enumerates(order, UniqueKeywords(keywords)) && LongestFirst(order)
  {
    var out := Escape(text);
    if keywords == [] || UniqueKeywords(keywords) == {} then out
    else
      assert forall a :: 0 <= a < |order| ==> order[a] in UniqueKeywords(keywords);
      SubFrom(lib, out, order, 0)
  }

  // ---------------------------------------------------- highlight lemmas

  /** The alternative the scan takes at a position is a longest keyword that matches there. */
  lemma FirstAltLongest(lib: Stdlib, s: string, i: nat, alts: seq<string>)
    requires LongestFirst(alts) && forall a :: 0 <= a < |alts| ==> alts[a] != ""
    ensures var r := FirstAlt(lib, s, i, alts, 0);
      r.Some? ==> forall a :: 0 <= a < |alts| && AltMatches(lib, s, i, alts[a]) ==> |alts[a]| <= r.value
  {
    var r := FirstAlt(lib, s, i, alts, 0);
    if r.Some? {
      var b := FirstAltIndex(lib, s, i, alts, 0);
      assert forall a :: 0 <= a < |alts| && AltMatches(lib, s, i, alts[a]) ==> b <= a;
    }
  }

  /** When no alternative is taken, none matches. */
  lemma {:induction false} FirstAltNone(lib: Stdlib, s: string, i: nat, alts: seq<string>, j: nat)
    requires j <= |alts| && forall a :: 0 <= a < |alts| ==> alts[a] != ""
    ensures FirstAlt(lib, s, i, alts, j).None? <==> forall a :: j <= a < |alts| ==> !AltMatches(lib, s, i, alts[a])
    decreases |alts| - j
  {
    if j < |alts| {
      FirstAltNone(lib, s, i, alts, j + 1);
    }
  }

  /** The index of the alternative `FirstAlt` takes: all before it fail. */
  lemma {:induction false} FirstAltIndex(lib: Stdlib, s: string, i: nat, alts: seq<string>, j: nat) returns (b: nat)
    requires j <= |alts| && forall a :: 0 <= a < |alts| ==> alts[a] != ""
    requires FirstAlt(lib, s, i, alts, j).Some?
    ensures j <= b < |alts| && |alts[b]| == FirstAlt(lib, s, i, alts, j).value && AltMatches(lib, s, i, alts[b])
    ensures forall a :: j <= a < b ==> !AltMatches(lib, s, i, alts[a])
    decreases |alts| - j
  {
    if AltMatches(lib, s, i, alts[j]) {
      b := j;
    } else {
      b := FirstAltIndex(lib, s, i, alts, j + 1);
    }
  }

  /** Deleting the inserted tags from the substituted text gives the text back. */
  lemma {:induction false} SubFromDeleteTags(lib: Stdlib, s: string, alts: seq<string>, i: nat)
    requires i <= |s| && forall a :: 0 <= a < |alts| ==> alts[a] != ""
    requires '<' !in s
    ensures DeleteTags(SubFrom(lib, s, alts, i)) == s[i..]
    decreases |s| - i
  {
    if i < |s| {
      match FirstAlt(lib, s, i, alts, 0)
      case Some(n) =>
        SubFromDeleteTags(lib, s, alts, i + n);
        SubFromHit(lib, s, alts, i);
        DeleteTagsHit(s, i, n, SubFrom(lib, s, alts, i + n), SubFrom(lib, s, alts, i));
      case None =>
        SubFromDeleteTags(lib, s, alts, i + 1);
        DeleteTagsMiss(lib, s, alts, i);
    }
  }

  /** A match `s[i..i + n]`: the wrapped match loses its tags, and the rest is as the step after it says. */
  lemma DeleteTagsHit(s: string, i: nat, n: nat, rest: string, whole: string)
    requires i + n <= |s| && '<' !in s && DeleteTags(rest) == s[i + n..]
    requires whole == Wrap(s[i..i + n]) + rest
    ensures DeleteTags(whole) == s[i..]
  {
    NotInSlice(s, '<', i, i + n);
    DeleteMatchStep(s[i..i + n], rest, s[i + n..]);
    SliceSplit(s, i, i + n);
  }

  lemma SliceSplit(s: string, i: nat, j: nat)
    requires i <= j <= |s|
    ensures s[i..] == s[i..j] + s[j..]
  {
  }

  lemma SubFromHit(lib: Stdlib, s: string, alts: seq<string>, i: nat)
    requires i < |s| && forall a :: 0 <= a < |alts| ==> alts[a] != ""
    requires FirstAlt(lib, s, i, alts, 0).Some?
    ensures var n := FirstAlt(lib, s, i, alts, 0).value;
      i + n <= |s| && SubFrom(lib, s, alts, i) == Wrap(s[i..i + n]) + SubFrom(lib, s, alts, i + n)
  {
  }

  /** No match at `i`: the character is copied, and the rest is as the step after it says. */
  lemma DeleteTagsMiss(lib: Stdlib, s: string, alts: seq<string>, i: nat)
    requires i < |s| && forall a :: 0 <= a < |alts| ==> alts[a] != ""
    requires '<' !in s && FirstAlt(lib, s, i, alts, 0).None?
    requires DeleteTags(SubFrom(lib, s, alts, i + 1)) == s[i + 1..]
    ensures DeleteTags(SubFrom(lib, s, alts, i)) == s[i..]
  {
    DeleteCopyStep(s[i], SubFrom(lib, s, alts, i + 1), s[i + 1..]);
    assert s[i..] == [s[i]] + s[i + 1..];
  }

  lemma NotInSlice(s: string, c: char, i: nat, j: nat)
    requires i <= j <= |s| && c !in s
    ensures c !in s[i..j]
  {
  }

  lemma DeleteMatchStep(m: string, rest: string, tail: string)
    requires '<' !in m && DeleteTags(rest) == tail
    ensures DeleteTags(Wrap(m) + rest) == m + tail
  {
    DeleteWrap(m, rest);
  }

  lemma DeleteCopyStep(c: char, rest: string, tail: string)
    requires c != '<' && DeleteTags(rest) == tail
    ensures DeleteTags([c] + rest) == [c] + tail
  {
    DeletePlain([c], rest);
  }

  /** Where no keyword matches, the substitution copies the text. */
  lemma {:induction false} SubFromNoMatch(lib: Stdlib, s: string, alts: seq<string>, i: nat)
    requires i <= |s| && forall a :: 0 <= a < |alts| ==> alts[a] != ""
    requires forall p, a :: i <= p < |s| && 0 <= a < |alts| ==> !AltMatches(lib, s, p, alts[a])
    ensures SubFrom(lib, s, alts, i) == s[i..]
    decreases |s| - i
  {
    if i < |s| {
      FirstAltNone(lib, s, i, alts, 0);
      SubFromNoMatch(lib, s, alts, i + 1);
      assert s[i..] == [s[i]] + s[i + 1..];
    }
  }

  /**
   * Deleting the inserted tags from the highlighted HTML gives exactly the
   * escaped text, which holds no '<' of its own.
   */
  lemma HighlightDeleteTags(lib: Stdlib, text: string, keywords: seq<string>, order: seq<string>)
    requires Enumerates(order, UniqueKeywords(keywords)) && LongestFirst(order)
    ensures DeleteTags(Highlight(lib, text, keywords, order)) == Escape(text)
    ensures '<' !in Escape(text)
  {
    var out := Escape(text);
    if keywords == [] || UniqueKeywords(keywords) == {} {
      DeletePlain(out, []);
      assert out + [] == out;
    } else {
      assert forall a :: 0 <= a < |order| ==> order[a] in UniqueKeywords(keywords);
      SubFromDeleteTags(lib, out, order, 0);
    }
  }

  /** Without keywords, or with only empty ones, the result is exactly the escaped text. */
  lemma HighlightNoKeywords(lib: Stdlib, text: string, keywords: seq<string>, order: seq<string>)
    requires Enumerates(order, UniqueKeywords(keywords)) && LongestFirst(order)
    requires forall i :: 0 <= i < |keywords| ==> keywords[i] == ""
    ensures Highlight(lib, text, keywords, order) == Escape(text)
  {
    assert UniqueKeywords(keywords) == {};
  }

  /** A keyword inside a longer word is not highlighted by the core copy: "fee" in "coffee". */
  lemma CoreSkipsPartWords(lib: Stdlib)
    requires forall c :: c in "coffee" ==> lib.isWordChar(c)
    ensures Highlight(lib, "coffee", ["fee"], ["fee"]) == "coffee"
  {
    var s := "coffee";
    EscapeCoffee();
    assert UniqueKeywords(["fee"]) == {"fee"};
    CoffeeNoMatch(lib);
    SubFromNoMatch(lib, s, ["fee"], 0);
  }

  lemma EscapeCoffee()
    ensures Escape("coffee") == "coffee"
  {
    EscapePlain("coffee");
  }

  lemma CapitalizeFee()
    ensures Capitalize("fee") == "Fee"
  {
  }

  lemma CoffeeNoMatch(lib: Stdlib)
    requires forall c :: c in "coffee" ==> lib.isWordChar(c)
    ensures forall p, a :: 0 <= p < 6 && 0 <= a < 1 ==> !AltMatches(lib, "coffee", p, ["fee"][a])
  {
    var s := "coffee";
    forall p, a | 0 <= p < 6 && 0 <= a < 1
      ensures !AltMatches(lib, s, p, ["fee"][a])
    {
      if 0 < p < |s| {
        assert lib.isWordChar(s[p - 1]) && lib.isWordChar(s[p]);
      } else {
        assert s[0..3] == "cof";
      }
    }
  }

  // ----------------------------------------- highlight: the detector copy

  /** One keyword's two replacements: the keyword as given, then capitalized. */
  function ReplaceStep(out: string, kw: string): string {
    Replace(Replace(out, kw, Wrap(kw)), Capitalize(kw), Wrap(Capitalize(kw)))
  }

  /** The text after the first `k` keywords of `order`. */
  function ReplaceUpTo(out: string, order: seq<string>, k: nat): string
    requires k <= |order|
  {
    if k == 0 then out else ReplaceStep(ReplaceUpTo(out, order, k - 1), order[k - 1])
  }

  /**
   * `highlight_keywords` of `app/detector.py`.  `order` is `sorted(set(keywords),
   * key=len, reverse=True)`, the set's iteration order deciding among keywords of
   * equal length.
   */
  function DetectorHighlight(text: string, keywords: seq<string>, order: seq<string>): string
    requires Enumerates(order, set k | k in keywords) && LongestFirst(order)
  {
    if keywords == [] then Escape(text) else ReplaceUpTo(Escape(text), order, |order|)
  }

  method DetectorHighlightKeywords(text: string, keywords: seq<string>, order: seq<string>) returns (out: string)
    requires Enumerates(order, set k | k in keywords) && LongestFirst(order)
    ensures out == DetectorHighlight(text, keywords, order)
  {
    if keywords == [] {
      return Escape(text);
    }
    out := Escape(text);
    for i := 0 to |order|
      invariant out == ReplaceUpTo(Escape(text), order, i)
    {
      var kw := order[i];
      out := Replace(out, kw, Wrap(kw));
      out := Replace(out, Capitalize(kw), Wrap(Capitalize(kw)));
    }
  }

  /** A keyword that occurs neither as given nor capitalized leaves the text as it is. */
  lemma ReplaceStepAbsent(out: string, kw: string)
    requires kw != [] && !Contains(out, kw) && !Contains(out, Capitalize(kw))
    ensures ReplaceStep(out, kw) == out
  {
    ReplaceAbsent(out, kw, Wrap(kw));
    ReplaceAbsent(out, Capitalize(kw), Wrap(Capitalize(kw)));
  }

  /** Keywords that each leave the text as it is leave it as it is together. */
  lemma {:induction false} ReplaceUpToFixed(out: string, order: seq<string>, k: nat)
    requires k <= |order|
    requires forall a :: 0 <= a < |order| ==> ReplaceStep(out, order[a]) == out
    ensures ReplaceUpTo(out, order, k) == out
  {
    if k > 0 {
      ReplaceUpToFixed(out, order, k - 1);
      assert ReplaceStep(out, order[k - 1]) == out;
    }
  }

  /** When no keyword occurs in the escaped text in either form, the detector copy returns it unchanged. */
  lemma DetectorHighlightAbsent(text: string, keywords: seq<string>, order: seq<string>)
    requires Enumerates(order, set k | k in keywords) && LongestFirst(order)
    requires forall a :: 0 <= a < |order| ==>
      order[a] != [] && !Contains(Escape(text), order[a]) && !Contains(Escape(text), Capitalize(order[a]))
    ensures DetectorHighlight(text, keywords, order) == Escape(text)
  {
    forall a | 0 <= a < |order|
      ensures ReplaceStep(Escape(text), order[a]) == Escape(text)
    {
      ReplaceStepAbsent(Escape(text), order[a]);
    }
    ReplaceUpToFixed(Escape(text), order, |order|);
  }

  lemma NotContainsFirst(s: string, sub: string)
    requires sub != [] && sub[0] !in s
    ensures !Contains(s, sub)
  {
    forall i | 0 <= i <= |s| - |sub|
      ensures !OccursAt(s, sub, i)
    {
      MissesAt(s, sub, i);
    }
  }

  lemma CoffeeReplaced(repl: string)
    ensures Replace("coffee", "fee", repl) == "cof" + repl
  {
    var s := "coffee";
    assert s[3..6] == "fee";
    assert s[2..5] != "fee" && s[1..4] != "fee" && s[0..3] != "fee" by {
      assert s[2..5][1] == 'f' && s[1..4][0] == 'o' && s[0..3][0] == 'c';
    }
    assert ReplaceFrom(s, "fee", repl, 6) == [];
    assert ReplaceFrom(s, "fee", repl, 3) == repl;
    assert ReplaceFrom(s, "fee", repl, 2) == "f" + repl;
    assert ReplaceFrom(s, "fee", repl, 1) == "of" + repl;
  }

  lemma NoCapitalF()
    ensures 'F' !in "cof" + Wrap("fee")
  {
    assert 'F' !in OpenTag && 'F' !in CloseTag;
  }

  /** The detector copy highlights "fee" inside "coffee": it replaces substrings, not words. */
  lemma DetectorMarksPartWords()
    ensures DetectorHighlight("coffee", ["fee"], ["fee"]) == "cof" + Wrap("fee")
  {
    EscapeCoffee();
    assert (set k | k in ["fee"]) == {"fee"};
    CoffeeReplaced(Wrap("fee"));
    var once := "cof" + Wrap("fee");
    CapitalizeFee();
    NoCapitalF();
    NotContainsFirst(once, "Fee");
    ReplaceAbsent(once, "Fee", Wrap("Fee"));
  }

  // -------------------------------------------------------- risk factors

  /** One explanation line. */
  datatype Factor =
    | KeywordsFactor(keywords: seq<string>)
    | UrgencyWhole(score: nat)
    | UrgencyRaw(value: real)
    | ModelAll(entries: seq<(string, real)>)
    | ModelPair(logistic: real, nb: real)
  {
    /** The line's place in the list: keywords, then urgency, then the models. */
    function Rank(): nat {
      match this
      case KeywordsFactor(_) => 0
      case UrgencyWhole(_) => 1
      case UrgencyRaw(_) => 1
      case ModelAll(_) => 2
      case ModelPair(_, _) => 2
    }

    /** The line; `showReal` is `str` of a float and `show2` the `:.2f` format. */
    function Render(showReal: real -> string, show2: real -> string): string {
      match this
      case KeywordsFactor(kws) => "High-risk keywords: " + Join(kws, ", ")
      case UrgencyWhole(n) => "Urgency detected (score " + NatToString(n) + "/10)"
      case UrgencyRaw(u) => "Urgency detected (score " + showReal(u) + "/10)"
      case ModelAll(entries) => "Model agreement: " + Join(EntryTexts(entries, show2), ", ")
      case ModelPair(lp, nb) => "Model agreement: logistic=" + show2(lp) + ", nb=" + show2(nb)
    }
  }

  function EntryTexts(entries: seq<(string, real)>, show2: real -> string): (r: seq<string>)
    ensures |r| == |entries|
  {
    seq(|entries|, i requires 0 <= i < |entries| => entries[i].0 + "=" + show2(entries[i].1))
  }

  /** `dict.get(name, 0)` on the model probabilities. */
  function Lookup(probs: seq<(string, real)>, name: string): real {
    if probs == [] then 0.0 else if probs[0].0 == name then probs[0].1 else Lookup(probs[1..], name)
  }

  /** `risk_factors_from_prediction` of `app/core/explainer.py`. */
  function RiskFactors(p: Prediction): seq<Factor> {
    (if p.keywords != [] then [KeywordsFactor(p.keywords)] else [])
    + (if p.urgencyScore >= UrgencyThreshold then [UrgencyWhole(p.urgencyScore.Floor as nat)] else [])
    + (if p.modelProbs != [] then [ModelAll(p.modelProbs)] else [])
  }

  method RiskFactorsFromPrediction(p: Prediction) returns (factors: seq<Factor>)
    ensures factors == RiskFactors(p)
  {
    factors := [];
    if p.keywords != [] {
      factors := factors + [KeywordsFactor(p.keywords)];
    }
    var urgency := p.urgencyScore;
    if urgency >= UrgencyThreshold {
      factors := factors + [UrgencyWhole(urgency.Floor as nat)];
    }
    if p.modelProbs != [] {
      factors := factors + [ModelAll(p.modelProbs)];
    }
  }

  /** `risk_factors_from_prediction` of `app/detector.py`. */
  function DetectorRiskFactors(p: Prediction): seq<Factor> {
    (if p.keywords != [] then [KeywordsFactor(p.keywords)] else [])
    + (if p.urgencyScore >= 6.0 then [UrgencyRaw(p.urgencyScore)] else [])
    + (if p.modelProbs != [] then [ModelPair(Lookup(p.modelProbs, "logistic"), Lookup(p.modelProbs, "nb"))] else [])
  }

  method DetectorRiskFactorsFromPrediction(p: Prediction) returns (factors: seq<Factor>)
    ensures factors == DetectorRiskFactors(p)
  {
    factors := [];
    if p.keywords != [] {
      factors := factors + [KeywordsFactor(p.keywords)];
    }
    if p.urgencyScore >= 6.0 {
      factors := factors + [UrgencyRaw(p.urgencyScore)];
    }
    if p.modelProbs != [] {
      var lp := Lookup(p.modelProbs, "logistic");
      var npb := Lookup(p.modelProbs, "nb");
      factors := factors + [ModelPair(lp, npb)];
    }
  }

  // ------------------------------------------------- risk-factor lemmas

  /** The lines come in rank order, at most one of each kind. */
  predicate Ranked(f: seq<Factor>) {
    forall i, j :: 0 <= i < j < |f| ==> f[i].Rank() < f[j].Rank()
  }

  /**
   * At most three lines, keyword then urgency then model; the keyword line is
   * there exactly when keywords were found, the urgency line exactly when the
   * score reaches 6 (printed as its whole part), the model line exactly when some
   * model answered, listing every answer.
   */
  lemma RiskFactorsFacts(p: Prediction)
    ensures var f := RiskFactors(p);
      |f| <= 3 && Ranked(f)
      && (KeywordsFactor(p.keywords) in f <==> p.keywords != [])
      && ((exists i :: 0 <= i < |f| && f[i].UrgencyWhole?) <==> p.urgencyScore >= 6.0)
      && (forall i :: 0 <= i < |f| && f[i].UrgencyWhole? ==> f[i].score as real <= p.urgencyScore < f[i].score as real + 1.0)
      && (ModelAll(p.modelProbs) in f <==> p.modelProbs != [])
  {
    var f := RiskFactors(p);
    if p.urgencyScore >= 6.0 {
      assert f[if p.keywords != [] then 1 else 0].UrgencyWhole?;
    }
  }

  /** The same shape for the detector copy, whose model line carries only the logistic and naive-Bayes values. */
  lemma DetectorRiskFactorsFacts(p: Prediction)
    ensures var f := DetectorRiskFactors(p);
      |f| <= 3 && Ranked(f)
      && (KeywordsFactor(p.keywords) in f <==> p.keywords != [])
      && (UrgencyRaw(p.urgencyScore) in f <==> p.urgencyScore >= 6.0)
      && ((exists i :: 0 <= i < |f| && f[i].ModelPair?) <==> p.modelProbs != [])
  {
    var f := DetectorRiskFactors(p);
    if p.modelProbs != [] {
      assert f[|f| - 1].ModelPair?;
    }
  }

  /** A model that is not listed reads as 0. */
  lemma {:induction false} LookupMissing(probs: seq<(string, real)>, name: string)
    requires forall i :: 0 <= i < |probs| ==> probs[i].0 != name
    ensures Lookup(probs, name) == 0.0
  {
    if probs != [] {
      LookupMissing(probs[1..], name);
    }
  }

  /** With only a pipeline probability, the detector copy's model line reports 0 for both models it names. */
  lemma DetectorModelLineIgnoresPipeline(p: Prediction, x: real)
    requires p.modelProbs == [("pipeline", x)]
    ensures ModelPair(0.0, 0.0) in DetectorRiskFactors(p)
    ensures ModelAll([("pipeline", x)]) in RiskFactors(p)
  {
    assert "pipeline"[0] != "logistic"[0] && "pipeline"[0] != "nb"[0];
    LookupMissing(p.modelProbs, "logistic");
    LookupMissing(p.modelProbs, "nb");
    var f := DetectorRiskFactors(p);
    assert f[|f| - 1] == ModelPair(0.0, 0.0);
  }

  /**
   * The urgency line of the prediction appears exactly when some urgency phrase
   * occurs in the lowercased text, since the score is 0 or at least 6.
   */
  lemma UrgencyLineIff(engine: Engine, lib: Stdlib, text: string, scores: Scores,
                       headers: map<string, string>, order: seq<string>)
    ensures var p := PredictionOf(engine, lib, text, scores, headers, order);
      (UrgencyRaw(p.urgencyScore) in DetectorRiskFactors(p))
      <==> exists j :: 0 <= j < |UrgencyKeywords| && Contains(Lower(text), UrgencyKeywords[j].0)
  {
    UrgencyRange(text);
    var p := PredictionOf(engine, lib, text, scores, headers, order);
    assert p.urgencyScore == UrgencyScore(text);
    DetectorRiskFactorsFacts(p);
  }
}
