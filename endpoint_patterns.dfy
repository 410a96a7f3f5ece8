/** The two patterns `extractSearchUrlScript` (src/features/hltb.ts) uses to
    find the search endpoint: the global pattern over the whole script, which
    captures an endpoint path and the chain of `.concat` calls after it, and
    the global call pattern that reads the literals back out of that chain.

    As in `KeyPatterns`, each matcher works on the text starting at one index,
    and the text it accepts is written out by its parts next to it; the
    lemmas in `EndpointFacts` connect the two. Both quotes `"` and `'` are
    accepted on either side of a literal, independently, as the character
    class `["']` does. */
module EndpointPatterns {
  import opened Wrappers
  import opened Text
  import opened Regex

  // ------------------------------------------------ .concat( "lit" )

  /** `["']([^"']*)["']`: a quote, a run of non-quotes (the capture), a
      quote; the result holds the capture and the text after the closing quote. */
  function QuotedAt(t: string): (r: Option<(string, string)>)
    ensures r.Some? ==> |r.value.1| < |t|
  {
    if t == [] || !IsQuote(t[0]) then None else
    var lit := Span(t[1..], NotQuote);
    if lit.1 == [] then None else Some((lit.0, lit.1[1..]))
  }

  /** A quoted literal, then `rest`. */
  function QuotedText(open: char, lit: string, close: char, rest: string): string {
    [open] + (lit + ([close] + rest))
  }

  /** `\.concat\(\s*["']([^"']*)["']\s*\)` */
  function QuotedCallAt(t: string): (r: Option<Match<string>>)
    ensures r.Some? ==> |r.value.rest| < |t|
  {
    var a := After(t, ".concat(");
    if a.None? then None else
    var q := QuotedAt(SkipSpaces(a.value));
    if q.None? then None else
    var c := After(SkipSpaces(q.value.1), ")");
    if c.None? then None
    else Some(Match(q.value.0, c.value))
  }

  /** One iteration of the repeated group: `\s*` and then a call. */
  function SpacedCallAt(t: string): (r: Option<Match<string>>)
    ensures r.Some? ==> |r.value.rest| < |t|
  {
    QuotedCallAt(SkipSpaces(t))
  }

  /** What the greedy group `(?:\s*\.concat\(...\))*` leaves after it. */
  function SpacedRun(t: string): (rest: string)
    ensures |rest| <= |t|
    decreases |t|
  {
    match SpacedCallAt(t)
    case Some(x) => SpacedRun(x.rest)
    case None => t
  }

  /** The pieces of one call as it appears in the script: the spaces before
      it (`lead`), the spaces after `(` (`inner`), the opening quote, the
      literal, the closing quote and the spaces before `)` (`trail`). */
  datatype Call = Call(lead: string, inner: string, open: char, lit: string, close: char, trail: string)

  predicate CallParts(c: Call) {
    All(c.lead, IsSpace) && All(c.inner, IsSpace) && IsQuote(c.open)
    && All(c.lit, NotQuote) && IsQuote(c.close) && All(c.trail, IsSpace)
  }

  /** The call without its leading spaces, then `rest`. */
  function QuotedCallText(c: Call, rest: string): string {
    ".concat(" + (c.inner + QuotedText(c.open, c.lit, c.close, c.trail + (")" + rest)))
  }

  /** The call with its leading spaces, then `rest`. */
  function SpacedCallText(c: Call, rest: string): string {
    c.lead + QuotedCallText(c, rest)
  }

  /** A chain of calls, then `rest`. */
  function CallsText(cs: seq<Call>, rest: string): (r: string)
    ensures |r| >= |rest|
    decreases |cs|
  {
    if cs == [] then rest else SpacedCallText(cs[0], CallsText(cs[1..], rest))
  }

  /** The literals of a chain of calls, in order. */
  function Literals(cs: seq<Call>): (r: seq<string>)
    ensures |r| == |cs| && forall k :: 0 <= k < |cs| ==> r[k] == cs[k].lit
    decreases |cs|
  {
    if cs == [] then [] else [cs[0].lit] + Literals(cs[1..])
  }

  // ------------------------------------ fetch( '/api/path' .concat(...)... ,

  /** The two groups the endpoint pattern captures: the path and the text of
      the chain of calls. */
  datatype EndpointMatch = EndpointMatch(endpoint: string, concatCalls: string)

  /** `fetch\(\s*["'](\/api\/[^"']*)["']((?:\s*\.concat\(\s*["']([^"']*)["']\s*\))+)\s*,`,
      taken in two stages: the head up to the closing quote of the path, then
      the group of calls and the comma. */
  function SearchFetchAt(t: string): (r: Option<Match<EndpointMatch>>)
    ensures r.Some? ==> |r.value.rest| < |t| && "/api/" <= r.value.cap.endpoint
  {
    match FetchHead(t)
    case None => None
    case Some(h) =>
      match FetchTail(h.1)
      case None => None
      case Some(g) => Some(Match(EndpointMatch(h.0, g.0), g.1))
  }

  /** `fetch\(\s*["'](\/api\/[^"']*)["']`: the path and the text after it. */
  function FetchHead(t: string): (r: Option<(string, string)>)
    ensures r.Some? ==> |r.value.1| < |t| && "/api/" <= r.value.0
  {
    var a := After(t, "fetch(");
    if a.None? then None else
    var q := QuotedAt(SkipSpaces(a.value));
    if q.None? || !("/api/" <= q.value.0) then None else q
  }

  /** `((?:\s*\.concat\(...\))+)\s*,`: the text of the group and the text
      after the comma. */
  function FetchTail(calls: string): (r: Option<(string, string)>)
    ensures r.Some? ==> |r.value.1| < |calls|
  {
    match SpacedCallAt(calls)
    case None => None
    case Some(first) =>
      var rest := SpacedRun(first.rest);
      var d := After(SkipSpaces(rest), ",");
      if d.None? then None
      else Some((calls[..|calls| - |rest|], d.value))
  }

  /** The pieces of a matched `fetch(` call: spaces, the opening quote, the
      path after `/api/`, the closing quote, the calls, and the spaces before
      the comma. */
  datatype FetchCall = FetchCall(lead: string, open: char, path: string, close: char, calls: seq<Call>, trail: string)

  predicate FetchParts(f: FetchCall) {
    All(f.lead, IsSpace) && IsQuote(f.open) && All(f.path, NotQuote) && IsQuote(f.close)
    && |f.calls| >= 1 && (forall k :: 0 <= k < |f.calls| ==> CallParts(f.calls[k]))
    && All(f.trail, IsSpace)
  }

  /** `fetch(` ... `,`, then `rest`. */
  function SearchFetchText(f: FetchCall, rest: string): string {
    "fetch(" + (f.lead + QuotedText(f.open, "/api/" + f.path, f.close, CallsText(f.calls, f.trail + ("," + rest))))
  }
}
