/** What the patterns of `EndpointPatterns` match: each pattern matches
    exactly the texts its generator writes out, and the chain of calls the
    endpoint pattern captures, rescanned with the call pattern, gives back
    the literals of its calls in order. */
module EndpointFacts {
  import opened Wrappers
  import opened Text
  import opened Regex
  import opened EndpointPatterns

  // ------------------------------------------------ .concat( "lit" )

  /** A text that does not start with `.` does not start a call. */
  lemma NoCallAt(t: string)
    requires t == [] || t[0] != '.'
    ensures QuotedCallAt(t).None?
  {
  }

  /** A quoted literal is matched, up to its closing quote. */
  lemma QuotedOver(open: char, lit: string, close: char, rest: string)
    requires IsQuote(open) && All(lit, NotQuote) && IsQuote(close)
    ensures QuotedAt(QuotedText(open, lit, close, rest)) == Some((lit, rest))
  {
    var s := [close] + rest;
    var t := QuotedText(open, lit, close, rest);
    assert t[0] == open && t[1..] == lit + s;
    assert s[0] == close && s[1..] == rest;
    SpanOver(lit, s, NotQuote);
  }

  lemma QuotedSplit(t: string) returns (open: char, close: char)
    requires QuotedAt(t).Some?
    ensures var q := QuotedAt(t).value;
            IsQuote(open) && All(q.0, NotQuote) && IsQuote(close) && t == QuotedText(open, q.0, close, q.1)
  {
    var lit := Span(t[1..], NotQuote);
    SpanSplit(t[1..], NotQuote);
    open, close := t[0], lit.1[0];
    assert t == [t[0]] + t[1..];
    assert lit.1 == [close] + lit.1[1..];
  }

  /** `QuotedCallAt` step by step. */
  lemma QuotedCallSteps(t: string, a: string, lit: string, l1: string, rest: string)
    requires After(t, ".concat(") == Some(a)
    requires QuotedAt(SkipSpaces(a)) == Some((lit, l1))
    requires After(SkipSpaces(l1), ")") == Some(rest)
    ensures QuotedCallAt(t) == Some(Match(lit, rest))
  {
  }

  lemma QuotedCallComplete(c: Call, rest: string)
    requires CallParts(c)
    ensures QuotedCallAt(QuotedCallText(c, rest)) == Some(Match(c.lit, rest))
  {
    var s4 := ")" + rest;
    var body := c.trail + s4;
    var qt := QuotedText(c.open, c.lit, c.close, body);
    var t := QuotedCallText(c, rest);
    AfterOver(".concat(", c.inner + qt);
    assert qt[0] == c.open;
    SkipSpacesOver(c.inner, qt);
    QuotedOver(c.open, c.lit, c.close, body);
    SkipSpacesOver(c.trail, s4);
    AfterOver(")", rest);
    QuotedCallSteps(t, c.inner + qt, c.lit, body, rest);
  }

  lemma QuotedCallSound(t: string) returns (c: Call)
    requires QuotedCallAt(t).Some?
    ensures var x := QuotedCallAt(t).value;
            CallParts(c) && c.lead == [] && c.lit == x.cap && t == QuotedCallText(c, x.rest)
  {
    var a := After(t, ".concat(").value;
    var q := QuotedAt(SkipSpaces(a)).value;
    var rest := After(SkipSpaces(q.1), ")").value;
    QuotedCallSteps(t, a, q.0, q.1, rest);
    c := QuotedCallAssemble(t, a, q.0, q.1, rest);
  }

  lemma QuotedCallAssemble(t: string, a: string, lit: string, l1: string, rest: string) returns (c: Call)
    requires After(t, ".concat(") == Some(a)
    requires QuotedAt(SkipSpaces(a)) == Some((lit, l1))
    requires After(SkipSpaces(l1), ")") == Some(rest)
    ensures CallParts(c) && c.lead == [] && c.lit == lit && t == QuotedCallText(c, rest)
  {
    AfterSplit(t, ".concat(");
    var inner := SkipSpacesSplit(a);
    var open, close := QuotedSplit(SkipSpaces(a));
    var trail := SkipSpacesSplit(l1);
    AfterSplit(SkipSpaces(l1), ")");
    c := Call([], inner, open, lit, close, trail);
    assert l1 == trail + (")" + rest);
    assert t == ".concat(" + (inner + QuotedText(open, lit, close, l1));
  }

  lemma SpacedCallComplete(c: Call, rest: string)
    requires CallParts(c)
    ensures SpacedCallAt(SpacedCallText(c, rest)) == Some(Match(c.lit, rest))
  {
    var q := QuotedCallText(c, rest);
    assert q[0] == '.';
    SkipSpacesOver(c.lead, q);
    QuotedCallComplete(c, rest);
  }

  lemma SpacedCallSound(t: string) returns (c: Call)
    requires SpacedCallAt(t).Some?
    ensures var x := SpacedCallAt(t).value;
            CallParts(c) && c.lit == x.cap && t == SpacedCallText(c, x.rest)
  {
    var lead := SkipSpacesSplit(t);
    var c0 := QuotedCallSound(SkipSpaces(t));
    c := c0.(lead := lead);
  }

  // ------------------------------------------------------ chains of calls

  lemma {:induction false} CallsTextAppend(cs: seq<Call>, rest: string)
    ensures CallsText(cs, rest) == CallsText(cs, "") + rest
    decreases |cs|
  {
    if cs != [] {
      CallsTextAppend(cs[1..], rest);
      var tail := CallsText(cs[1..], "");
      assert SpacedCallText(cs[0], tail + rest) == SpacedCallText(cs[0], tail) + rest;
    }
  }

  /** The chain is what precedes `rest` in its text. */
  lemma CallsPrefix(cs: seq<Call>, rest: string)
    ensures var calls := CallsText(cs, rest);
            calls[..|calls| - |rest|] == CallsText(cs, "")
  {
    CallsTextAppend(cs, rest);
    var x := CallsText(cs, "");
    assert (x + rest)[..|x|] == x;
  }

  /** Over a chain of calls followed by text that does not start another,
      the greedy group takes the whole chain. */
  lemma {:induction false} SpacedRunChain(cs: seq<Call>, rest: string)
    requires forall k :: 0 <= k < |cs| ==> CallParts(cs[k])
    requires SpacedCallAt(rest).None?
    ensures SpacedRun(CallsText(cs, rest)) == rest
    decreases |cs|
  {
    if cs != [] {
      SpacedCallComplete(cs[0], CallsText(cs[1..], rest));
      SpacedRunChain(cs[1..], rest);
    }
  }

  /** What the greedy group consumed is a chain of calls, and the text
      after it does not start another. */
  lemma {:induction false} SpacedRunSound(t: string) returns (cs: seq<Call>)
    ensures forall k :: 0 <= k < |cs| ==> CallParts(cs[k])
    ensures t == CallsText(cs, SpacedRun(t)) && SpacedCallAt(SpacedRun(t)).None?
    decreases |t|
  {
    var here := SpacedCallAt(t);
    if here.None? {
      cs := [];
    } else {
      var x := here.value;
      var c := SpacedCallSound(t);
      var tail := SpacedRunSound(x.rest);
      var rest := SpacedRun(x.rest);
      assert SpacedRun(t) == rest;
      cs := [c] + tail;
      assert cs[0] == c && cs[1..] == tail;
      assert CallsText(cs, rest) == SpacedCallText(c, CallsText(tail, rest));
      forall k | 0 <= k < |cs| ensures CallParts(cs[k]) {
        if k > 0 { assert cs[k] == tail[k - 1]; }
      }
    }
  }

  /** A call followed by the greedy group: a chain of at least one call. */
  lemma SpacedChainSound(calls: string) returns (cs: seq<Call>)
    requires SpacedCallAt(calls).Some?
    ensures |cs| >= 1 && forall k :: 0 <= k < |cs| ==> CallParts(cs[k])
    ensures var rest := SpacedRun(SpacedCallAt(calls).value.rest);
            calls == CallsText(cs, rest) && SpacedCallAt(rest).None?
  {
    var first := SpacedCallAt(calls).value;
    var c := SpacedCallSound(calls);
    var more := SpacedRunSound(first.rest);
    var rest := SpacedRun(first.rest);
    cs := [c] + more;
    assert cs[0] == c && cs[1..] == more;
    assert CallsText(cs, rest) == SpacedCallText(c, CallsText(more, rest));
    forall k | 0 <= k < |cs| ensures CallParts(cs[k]) {
      if k > 0 { assert cs[k] == more[k - 1]; }
    }
  }

  /** Rescanning a chain with the global call pattern gives back its
      literals in order: the spaces between calls match nothing. */
  lemma {:induction false} ScanCalls(cs: seq<Call>)
    requires forall k :: 0 <= k < |cs| ==> CallParts(cs[k])
    ensures ScanAll(CallsText(cs, ""), QuotedCallAt) == Literals(cs)
    decreases |cs|
  {
    if cs != [] {
      var c := cs[0];
      var t := CallsText(cs, "");
      var q := QuotedCallText(c, CallsText(cs[1..], ""));
      assert t == c.lead + q;
      forall p | 0 <= p < |c.lead| ensures QuotedCallAt(t[p..]).None? {
        assert t[p..][0] == c.lead[p];
        NoCallAt(t[p..]);
      }
      ScanAllSkip(t, QuotedCallAt, |c.lead|);
      assert t[|c.lead|..] == q;
      QuotedCallComplete(c, CallsText(cs[1..], ""));
      ScanAllStep(q, QuotedCallAt);
      ScanCalls(cs[1..]);
    }
  }

  // ------------------------------------ fetch( '/api/path' .concat(...)... ,

  /** The path group: `/api/` and then non-quotes. */
  lemma EndpointPath(path: string)
    requires All(path, NotQuote)
    ensures All("/api/" + path, NotQuote) && "/api/" <= "/api/" + path
  {
    var ep := "/api/" + path;
    forall k | 0 <= k < |ep| ensures NotQuote(ep[k]) {
      if k >= 5 { assert ep[k] == path[k - 5]; }
    }
    assert ep[..5] == "/api/";
  }

  /** `FetchHead` step by step. */
  lemma FetchHeadSteps(t: string, a: string, ep: string, calls: string)
    requires After(t, "fetch(") == Some(a)
    requires QuotedAt(SkipSpaces(a)) == Some((ep, calls))
    requires "/api/" <= ep
    ensures FetchHead(t) == Some((ep, calls))
  {
  }

  /** The opening `fetch(` and quoted path of the endpoint pattern. */
  lemma FetchHeadOver(lead: string, open: char, ep: string, close: char, calls: string)
    requires All(lead, IsSpace) && IsQuote(open) && All(ep, NotQuote) && IsQuote(close) && "/api/" <= ep
    ensures FetchHead("fetch(" + (lead + QuotedText(open, ep, close, calls))) == Some((ep, calls))
  {
    var qt := QuotedText(open, ep, close, calls);
    AfterOver("fetch(", lead + qt);
    assert qt[0] == open;
    SkipSpacesOver(lead, qt);
    QuotedOver(open, ep, close, calls);
    FetchHeadSteps("fetch(" + (lead + qt), lead + qt, ep, calls);
  }

  lemma FetchHeadSplit(t: string) returns (lead: string, open: char, close: char)
    requires FetchHead(t).Some?
    ensures var h := FetchHead(t).value;
            All(lead, IsSpace) && IsQuote(open) && All(h.0, NotQuote) && IsQuote(close) && "/api/" <= h.0
            && t == "fetch(" + (lead + QuotedText(open, h.0, close, h.1))
  {
    var a := After(t, "fetch(").value;
    AfterSplit(t, "fetch(");
    lead := SkipSpacesSplit(a);
    open, close := QuotedSplit(SkipSpaces(a));
  }

  /** The text after the group does not start another iteration, and the
      comma follows it. */
  lemma FetchComma(trail: string, rest: string)
    requires All(trail, IsSpace)
    ensures SpacedCallAt(trail + ("," + rest)).None?
    ensures After(SkipSpaces(trail + ("," + rest)), ",") == Some(rest)
  {
    assert ("," + rest)[0] == ',';
    SkipSpacesOver(trail, "," + rest);
    NoCallAt("," + rest);
    AfterOver(",", rest);
  }

  /** The group of calls takes the whole chain. */
  lemma FetchRun(cs: seq<Call>, tail: string)
    requires |cs| >= 1 && forall k :: 0 <= k < |cs| ==> CallParts(cs[k])
    requires SpacedCallAt(tail).None?
    ensures SpacedCallAt(CallsText(cs, tail)).Some?
    ensures SpacedRun(SpacedCallAt(CallsText(cs, tail)).value.rest) == tail
  {
    var more := CallsText(cs[1..], tail);
    assert CallsText(cs, tail) == SpacedCallText(cs[0], more);
    SpacedCallComplete(cs[0], more);
    SpacedRunChain(cs[1..], tail);
  }

  /** `FetchTail` step by step. */
  lemma FetchTailSteps(calls: string, first: Match<string>, r: string, d: string)
    requires SpacedCallAt(calls) == Some(first)
    requires SpacedRun(first.rest) == r
    requires After(SkipSpaces(r), ",") == Some(d)
    ensures FetchTail(calls).Some? && FetchTail(calls).value.0 == calls[..|calls| - |r|]
            && FetchTail(calls).value.1 == d
  {
  }

  lemma FetchTailOver(cs: seq<Call>, trail: string, rest: string)
    requires |cs| >= 1 && forall k :: 0 <= k < |cs| ==> CallParts(cs[k])
    requires All(trail, IsSpace)
    ensures var r := FetchTail(CallsText(cs, trail + ("," + rest)));
            r.Some? && r.value.0 == CallsText(cs, "") && r.value.1 == rest
  {
    var tail := trail + ("," + rest);
    var calls := CallsText(cs, tail);
    FetchComma(trail, rest);
    FetchRun(cs, tail);
    CallsPrefix(cs, tail);
    FetchTailSteps(calls, SpacedCallAt(calls).value, tail, rest);
  }

  lemma FetchTailSplit(calls: string) returns (cs: seq<Call>, trail: string)
    requires FetchTail(calls).Some?
    ensures var g := FetchTail(calls).value;
            |cs| >= 1 && (forall k :: 0 <= k < |cs| ==> CallParts(cs[k])) && All(trail, IsSpace)
            && calls == CallsText(cs, trail + ("," + g.1)) && g.0 == CallsText(cs, "")
  {
    var rest := SpacedRun(SpacedCallAt(calls).value.rest);
    cs := SpacedChainSound(calls);
    trail := SkipSpacesSplit(rest);
    AfterSplit(SkipSpaces(rest), ",");
    CallsPrefix(cs, rest);
  }

  /** Every text the generator writes is matched, capturing the path and
      the text of the calls. */
  lemma SearchFetchComplete(f: FetchCall, rest: string)
    requires FetchParts(f)
    ensures var r := SearchFetchAt(SearchFetchText(f, rest));
            && r.Some? && r.value.rest == rest
            && r.value.cap.endpoint == "/api/" + f.path
            && r.value.cap.concatCalls == CallsText(f.calls, "")
  {
    var calls := CallsText(f.calls, f.trail + ("," + rest));
    var ep := "/api/" + f.path;
    EndpointPath(f.path);
    FetchHeadOver(f.lead, f.open, ep, f.close, calls);
    FetchTailOver(f.calls, f.trail, rest);
  }

  /** Every match is a text the generator writes, and its captures are the
      path and the text of the calls. */
  lemma SearchFetchSound(t: string) returns (f: FetchCall)
    requires SearchFetchAt(t).Some?
    ensures var x := SearchFetchAt(t).value;
            FetchParts(f) && t == SearchFetchText(f, x.rest)
            && x.cap.endpoint == "/api/" + f.path && x.cap.concatCalls == CallsText(f.calls, "")
  {
    var h := FetchHead(t).value;
    var g := FetchTail(h.1).value;
    var lead, open, close := FetchHeadSplit(t);
    var cs, trail := FetchTailSplit(h.1);
    f := FetchAssemble(t, lead, open, h.0, close, h.1, cs, trail, g.1);
  }

  lemma FetchAssemble(t: string, lead: string, open: char, ep: string, close: char, calls: string,
                      cs: seq<Call>, trail: string, d: string) returns (f: FetchCall)
    requires All(lead, IsSpace) && IsQuote(open) && All(ep, NotQuote) && IsQuote(close) && "/api/" <= ep
    requires t == "fetch(" + (lead + QuotedText(open, ep, close, calls))
    requires |cs| >= 1 && (forall k :: 0 <= k < |cs| ==> CallParts(cs[k])) && All(trail, IsSpace)
    requires calls == CallsText(cs, trail + ("," + d))
    ensures FetchParts(f) && t == SearchFetchText(f, d) && ep == "/api/" + f.path && f.calls == cs
  {
    var path := ep[5..];
    assert ep == "/api/" + path;
    assert All(path, NotQuote) by {
      forall k | 0 <= k < |path| ensures NotQuote(path[k]) { assert path[k] == ep[k + 5]; }
    }
    f := FetchCall(lead, open, path, close, cs, trail);
  }

  /** The key the loop compares for one match is the join of the literals
      of the calls that follow its path, in order. */
  lemma SearchFetchRescan(t: string) returns (f: FetchCall)
    requires SearchFetchAt(t).Some?
    ensures var x := SearchFetchAt(t).value;
            FetchParts(f) && t == SearchFetchText(f, x.rest) && x.cap.endpoint == "/api/" + f.path
            && ScanAll(x.cap.concatCalls, QuotedCallAt) == Literals(f.calls)
  {
    f := SearchFetchSound(t);
    ScanCalls(f.calls);
  }
}
