/** The three patterns `extractApiFromScript` (src/features/hltb.ts) runs over
    a script body, each as a matcher on the text starting at one index.

    Every pattern is a chain of literal text and greedy character-class runs
    in which each run is followed by a character outside its class, so the
    longest run is the only one that can complete the match: a matcher
    takes the longest run and checks the next literal. Next to each matcher
    stands the text it accepts, written out by its parts (`...Text`); the
    lemmas in `KeyFacts` show that every such text is matched with the
    expected capture (completeness) and that every match is such a text
    (soundness). */
module KeyPatterns {
  import opened Wrappers
  import opened Text
  import opened Regex

  // ------------------------------------------------------ .concat("...")

  /** `\.concat\("([^"]+)"\)` when `allowEmpty` is false,
      `\.concat\("([^"]*)"\)` when it is true. */
  function ConcatCallAt(t: string, allowEmpty: bool): (r: Option<Match<string>>)
    ensures r.Some? ==> |r.value.rest| < |t|
  {
    var a := After(t, ".concat(\"");
    if a.None? then None else
    var lit := Span(a.value, NotDoubleQuote);
    var b := After(lit.1, "\")");
    if (lit.0 == [] && !allowEmpty) || b.None? then None
    else Some(Match(lit.0, b.value))
  }

  function LooseCallAt(t: string): Option<Match<string>> { ConcatCallAt(t, true) }

  /** The greedy group `(?:\.concat\("..."\))*` over `t`: every iteration
      consumes at least the call's own text, so the loop runs until the text
      no longer starts another call. */
  function CallRun(t: string, allowEmpty: bool, last: Option<string>): (r: Run<string>)
    ensures |r.rest| <= |t|
    decreases |t|
  {
    match ConcatCallAt(t, allowEmpty)
    case Some(x) => CallRun(x.rest, allowEmpty, Some(x.cap))
    case None => Run(last, t)
  }

  /** A literal the call pattern accepts between its quotes. */
  predicate CallLiteral(lit: string, allowEmpty: bool) {
    All(lit, NotDoubleQuote) && (allowEmpty || lit != [])
  }

  /** `.concat("lit")`, then `rest`. */
  function CallText(lit: string, rest: string): string {
    ".concat(\"" + (lit + ("\")" + rest))
  }

  /** `.concat("l0").concat("l1")...`, then `rest`. */
  function ChainText(lits: seq<string>, rest: string): (r: string)
    ensures |r| >= |rest|
    decreases |lits|
  {
    if lits == [] then rest else CallText(lits[0], ChainText(lits[1..], rest))
  }

  // ---------------------------------------------- strategy 1: users: {id:

  /** The tokens between `users` and the key, each after `\s*`:
      `\s*:\s*{\s*id\s*:\s*"`. */
  const USER_ID_TOKENS: seq<string> := [":", "{", "id", ":", "\""]

  /** A run of tokens, each preceded by `\s*`: the text after the last one. */
  function SpacedTokens(t: string, toks: seq<string>): (r: Option<string>)
    ensures r.Some? ==> |r.value| <= |t|
    decreases |toks|
  {
    if toks == [] then Some(t) else
    match After(SkipSpaces(t), toks[0])
    case None => None
    case Some(u) => SpacedTokens(u, toks[1..])
  }

  /** The text `ws[0] toks[0] ws[1] toks[1] ...`, then `tail`. */
  function TokensText(ws: seq<string>, toks: seq<string>, tail: string): string
    requires |ws| == |toks|
    decreases |toks|
  {
    if toks == [] then tail else ws[0] + (toks[0] + TokensText(ws[1..], toks[1..], tail))
  }

  /** `users\s*:\s*{\s*id\s*:\s*"([^"]+)"` */
  function UserIdAt(t: string): (r: Option<Match<string>>)
    ensures r.Some? ==> |r.value.rest| < |t| && r.value.cap != []
  {
    var a := After(t, "users");
    if a.None? then None else
    var f := SpacedTokens(a.value, USER_ID_TOKENS);
    if f.None? then None else
    var key := Span(f.value, NotDoubleQuote);
    var g := After(key.1, "\"");
    if key.0 == [] || g.None? then None
    else Some(Match(key.0, g.value))
  }

  /** `users` w1 `:` w2 `{` w3 `id` w4 `:` w5 `"key"`, then `rest`. */
  function UserIdText(w1: string, w2: string, w3: string, w4: string, w5: string, key: string, rest: string): string {
    "users" + TokensText([w1, w2, w3, w4, w5], USER_ID_TOKENS, key + ("\"" + rest))
  }

  predicate UserIdParts(w1: string, w2: string, w3: string, w4: string, w5: string, key: string) {
    All(w1, IsSpace) && All(w2, IsSpace) && All(w3, IsSpace) && All(w4, IsSpace) && All(w5, IsSpace)
    && key != [] && All(key, NotDoubleQuote)
  }

  // ------------------------------------------------ opening: lit word /"

  /** `lit\w+\/"`, the opening both call-chain strategies share: the text
      after it. */
  function WordSegment(t: string, lit: string): (r: Option<string>)
    ensures r.Some? ==> |r.value| < |t|
  {
    var a := After(t, lit);
    if a.None? then None else
    var word := Span(a.value, IsWordChar);
    if word.0 == [] then None else After(word.1, "/\"")
  }

  // ---------------------------------- strategy 2: fetch("/api/w/").concat

  /** `fetch\("\/api\/\w+\/"\.concat\("([^"]+)"\)(?:\.concat\("([^"]+)"\))*\)`,
      with `match.slice(1).filter(defined).join("")` as the capture: the first
      literal followed by the literal of the last repeated call, if any. */
  function ConcatFetchAt(t: string): (r: Option<Match<string>>)
    ensures r.Some? ==> |r.value.rest| < |t|
  {
    match WordSegment(t, "fetch(\"/api/")
    case None => None
    case Some(b) =>
      match ConcatCallAt(b, false)
      case None => None
      case Some(first) =>
        var run := CallRun(first.rest, false, None);
        var c := After(run.rest, ")");
        if c.None? then None
        else Some(Match(Join(Present([Some(first.cap), run.last]), ""), c.value))
  }

  /** `fetch("/api/word/".concat("first").concat("m0")...)`, then `rest`. */
  function ConcatFetchText(word: string, first: string, more: seq<string>, rest: string): string {
    "fetch(\"/api/" + (word + ("/\"" + CallText(first, ChainText(more, ")" + rest))))
  }

  predicate ConcatFetchParts(word: string, first: string, more: seq<string>) {
    word != [] && All(word, IsWordChar) && CallLiteral(first, false)
    && forall k :: 0 <= k < |more| ==> CallLiteral(more[k], false)
  }

  /** The key strategy 2 reads: the first literal and the last repeated one. */
  function FirstAndLast(first: string, more: seq<string>): string {
    if more == [] then first else first + more[|more| - 1]
  }

  // ------------------------------- strategy 3: "/api/w/" then .concat chain

  /** `"\/api\/\w+\/"((?:\.concat\("[^"]*"\))+)`; the capture is the text of
      group 1, the chain of calls. */
  function ConcatAssignAt(t: string): (r: Option<Match<string>>)
    ensures r.Some? ==> |r.value.rest| < |t| && r.value.cap != []
  {
    match WordSegment(t, "\"/api/")
    case None => None
    case Some(calls) =>
      match ConcatCallAt(calls, true)
      case None => None
      case Some(first) =>
        var run := CallRun(first.rest, true, None);
        Some(Match(calls[..|calls| - |run.rest|], run.rest))
  }

  /** `"/api/word/".concat("l0")...`, then `rest`. */
  function ConcatAssignText(word: string, lits: seq<string>, rest: string): string {
    "\"/api/" + (word + ("/\"" + ChainText(lits, rest)))
  }

  /** The chain must be maximal: `rest` does not start another call. */
  predicate ConcatAssignParts(word: string, lits: seq<string>, rest: string) {
    word != [] && All(word, IsWordChar) && |lits| >= 1
    && (forall k :: 0 <= k < |lits| ==> CallLiteral(lits[k], true))
    && ConcatCallAt(rest, true).None?
  }
}
