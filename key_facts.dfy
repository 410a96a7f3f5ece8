/** What the patterns of `KeyPatterns` match: completeness and soundness of
    each matcher against the text it is meant to accept, what the greedy
    `.concat` group consumes, and what rescanning a chain gives back.

    Each matcher is first taken step by step over abstract intermediate
    texts (`...Steps`); completeness and soundness then only have to supply
    or read off those steps. */
module KeyFacts {
  import opened Wrappers
  import opened Text
  import opened Regex
  import opened KeyPatterns

  // ------------------------------------------------------ .concat("...")

  lemma {:induction false} ChainTextAppend(lits: seq<string>, rest: string)
    ensures ChainText(lits, rest) == ChainText(lits, "") + rest
    decreases |lits|
  {
    if lits != [] {
      ChainTextAppend(lits[1..], rest);
      var tail := ChainText(lits[1..], "");
      assert CallText(lits[0], tail + rest) == CallText(lits[0], tail) + rest;
    }
  }

  /** The chain is what precedes `rest` in its text. */
  lemma ChainPrefix(lits: seq<string>, rest: string)
    ensures var calls := ChainText(lits, rest);
            calls[..|calls| - |rest|] == ChainText(lits, "")
  {
    ChainTextAppend(lits, rest);
    var x := ChainText(lits, "");
    assert (x + rest)[..|x|] == x;
  }

  lemma CallSteps(t: string, a: string, lit: string, b: string, rest: string, allowEmpty: bool)
    requires After(t, ".concat(\"") == Some(a)
    requires Span(a, NotDoubleQuote) == (lit, b)
    requires After(b, "\")") == Some(rest)
    requires allowEmpty || lit != []
    ensures ConcatCallAt(t, allowEmpty) == Some(Match(lit, rest))
  {
  }

  lemma CallComplete(lit: string, rest: string, allowEmpty: bool)
    requires CallLiteral(lit, allowEmpty)
    ensures ConcatCallAt(CallText(lit, rest), allowEmpty) == Some(Match(lit, rest))
  {
    var b := "\")" + rest;
    AfterOver(".concat(\"", lit + b);
    SpanOver(lit, b, NotDoubleQuote);
    AfterOver("\")", rest);
    CallSteps(CallText(lit, rest), lit + b, lit, b, rest, allowEmpty);
  }

  lemma CallSound(t: string, allowEmpty: bool)
    requires ConcatCallAt(t, allowEmpty).Some?
    ensures var x := ConcatCallAt(t, allowEmpty).value;
            CallLiteral(x.cap, allowEmpty) && t == CallText(x.cap, x.rest)
  {
    var a := After(t, ".concat(\"").value;
    var lit := Span(a, NotDoubleQuote);
    var b := After(lit.1, "\")").value;
    AfterSplit(t, ".concat(\"");
    SpanSplit(a, NotDoubleQuote);
    AfterSplit(lit.1, "\")");
    assert t == CallText(lit.0, b);
  }

  /** A text that starts with `)` does not start a call. */
  lemma NoCallAtParen(rest: string, allowEmpty: bool)
    ensures ConcatCallAt(")" + rest, allowEmpty).None?
  {
    assert (")" + rest)[0] == ')';
  }

  /** Over a chain of calls followed by text that does not start another
      call, the greedy group takes the whole chain and keeps the last literal. */
  lemma {:induction false} RepeatChain(lits: seq<string>, rest: string, allowEmpty: bool, last: Option<string>)
    requires forall k :: 0 <= k < |lits| ==> CallLiteral(lits[k], allowEmpty)
    requires ConcatCallAt(rest, allowEmpty).None?
    ensures CallRun(ChainText(lits, rest), allowEmpty, last)
            == Run(if lits == [] then last else Some(lits[|lits| - 1]), rest)
    decreases |lits|
  {
    if lits != [] {
      var tail := ChainText(lits[1..], rest);
      CallComplete(lits[0], tail, allowEmpty);
      RepeatChain(lits[1..], rest, allowEmpty, Some(lits[0]));
      if |lits| > 1 {
        assert lits[1..][|lits[1..]| - 1] == lits[|lits| - 1];
      }
    }
  }

  /** What the greedy group consumed is a chain of calls, and the text after
      it does not start another call. */
  lemma {:induction false} RepeatSound(t: string, allowEmpty: bool, last: Option<string>)
    returns (lits: seq<string>)
    ensures forall k :: 0 <= k < |lits| ==> CallLiteral(lits[k], allowEmpty)
    ensures var r := CallRun(t, allowEmpty, last);
            t == ChainText(lits, r.rest)
            && ConcatCallAt(r.rest, allowEmpty).None?
            && r.last == (if lits == [] then last else Some(lits[|lits| - 1]))
    decreases |t|
  {
    var here := ConcatCallAt(t, allowEmpty);
    if here.None? {
      lits := [];
    } else {
      var x := here.value;
      CallSound(t, allowEmpty);
      var tail := RepeatSound(x.rest, allowEmpty, Some(x.cap));
      var r := CallRun(x.rest, allowEmpty, Some(x.cap));
      assert x.rest == ChainText(tail, r.rest);
      lits := [x.cap] + tail;
      assert lits[0] == x.cap && lits[1..] == tail;
      assert ChainText(lits, r.rest) == CallText(x.cap, x.rest);
      forall k | 0 <= k < |lits| ensures CallLiteral(lits[k], allowEmpty) {
        if k > 0 { assert lits[k] == tail[k - 1]; }
      }
      if tail != [] {
        assert lits[|lits| - 1] == tail[|tail| - 1];
      }
    }
  }

  /** A call followed by the greedy group of further calls is a chain of
      at least one call, ended by text that does not start another. */
  lemma ChainSound(t: string, allowEmpty: bool) returns (lits: seq<string>)
    requires ConcatCallAt(t, allowEmpty).Some?
    ensures |lits| >= 1 && forall k :: 0 <= k < |lits| ==> CallLiteral(lits[k], allowEmpty)
    ensures var first := ConcatCallAt(t, allowEmpty).value;
            var run := CallRun(first.rest, allowEmpty, None);
            lits[0] == first.cap && t == ChainText(lits, run.rest)
            && ConcatCallAt(run.rest, allowEmpty).None?
            && run.last == (if |lits| == 1 then None else Some(lits[|lits| - 1]))
  {
    var first := ConcatCallAt(t, allowEmpty).value;
    CallSound(t, allowEmpty);
    var more := RepeatSound(first.rest, allowEmpty, None);
    var run := CallRun(first.rest, allowEmpty, None);
    lits := ChainCons(first.cap, more, run.rest, allowEmpty);
  }

  /** One more call in front of a chain. */
  lemma ChainCons(lit: string, more: seq<string>, rest: string, allowEmpty: bool) returns (lits: seq<string>)
    requires CallLiteral(lit, allowEmpty) && forall k :: 0 <= k < |more| ==> CallLiteral(more[k], allowEmpty)
    ensures lits == [lit] + more
    ensures |lits| >= 1 && forall k :: 0 <= k < |lits| ==> CallLiteral(lits[k], allowEmpty)
    ensures lits[0] == lit && ChainText(lits, rest) == CallText(lit, ChainText(more, rest))
    ensures more != [] ==> lits[|lits| - 1] == more[|more| - 1]
  {
    lits := [lit] + more;
    assert lits[1..] == more;
    forall k | 0 <= k < |lits| ensures CallLiteral(lits[k], allowEmpty) {
      if k > 0 { assert lits[k] == more[k - 1]; }
    }
  }

  /** Rescanning a chain of calls with the global loose call pattern gives
      back its literals, in order. */
  lemma {:induction false} ScanChain(lits: seq<string>)
    requires forall k :: 0 <= k < |lits| ==> All(lits[k], NotDoubleQuote)
    ensures ScanAll(ChainText(lits, ""), LooseCallAt) == lits
    decreases |lits|
  {
    if lits != [] {
      var tail := ChainText(lits[1..], "");
      CallComplete(lits[0], tail, true);
      ScanAllStep(ChainText(lits, ""), LooseCallAt);
      ScanChain(lits[1..]);
      assert lits == [lits[0]] + lits[1..];
    }
  }

  // ---------------------------------------------- strategy 1: users: {id:

  /** `\s*` and then a token: what is left after the token. */
  lemma SpacedToken(w: string, lit: string, next: string)
    requires All(w, IsSpace) && lit != [] && !IsSpace(lit[0])
    ensures After(SkipSpaces(w + (lit + next)), lit) == Some(next)
  {
    assert (lit + next)[0] == lit[0];
    SkipSpacesOver(w, lit + next);
    AfterOver(lit, next);
  }

  /** Tokens that do not start with white space, each after white space,
      are passed over one by one. */
  lemma {:induction false} TokensOver(ws: seq<string>, toks: seq<string>, tail: string)
    requires |ws| == |toks|
    requires forall k :: 0 <= k < |toks| ==> All(ws[k], IsSpace) && toks[k] != [] && !IsSpace(toks[k][0])
    ensures SpacedTokens(TokensText(ws, toks, tail), toks) == Some(tail)
    decreases |toks|
  {
    if toks != [] {
      SpacedToken(ws[0], toks[0], TokensText(ws[1..], toks[1..], tail));
      forall k | 0 <= k < |toks[1..]|
        ensures All(ws[1..][k], IsSpace) && toks[1..][k] != [] && !IsSpace(toks[1..][k][0])
      {
        assert ws[1..][k] == ws[k + 1] && toks[1..][k] == toks[k + 1];
      }
      TokensOver(ws[1..], toks[1..], tail);
    }
  }

  /** What the tokens pass over is white space before each token. */
  lemma {:induction false} TokensSound(t: string, toks: seq<string>) returns (ws: seq<string>)
    requires SpacedTokens(t, toks).Some?
    ensures |ws| == |toks| && forall k :: 0 <= k < |ws| ==> All(ws[k], IsSpace)
    ensures t == TokensText(ws, toks, SpacedTokens(t, toks).value)
    decreases |toks|
  {
    if toks == [] {
      ws := [];
    } else {
      var u := After(SkipSpaces(t), toks[0]).value;
      var w := SkipSpacesSplit(t);
      AfterSplit(SkipSpaces(t), toks[0]);
      var more := TokensSound(u, toks[1..]);
      ws := [w] + more;
      assert ws[1..] == more;
      forall k | 0 <= k < |ws| ensures All(ws[k], IsSpace) {
        if k > 0 { assert ws[k] == more[k - 1]; }
      }
    }
  }

  /** The white space around the tokens of strategy 1, as a list. */
  lemma UserIdSpaces(w1: string, w2: string, w3: string, w4: string, w5: string)
    requires All(w1, IsSpace) && All(w2, IsSpace) && All(w3, IsSpace) && All(w4, IsSpace) && All(w5, IsSpace)
    ensures forall k :: 0 <= k < |USER_ID_TOKENS| ==>
              All([w1, w2, w3, w4, w5][k], IsSpace) && USER_ID_TOKENS[k] != [] && !IsSpace(USER_ID_TOKENS[k][0])
  {
  }

  lemma UserIdComplete(w1: string, w2: string, w3: string, w4: string, w5: string, key: string, rest: string)
    requires UserIdParts(w1, w2, w3, w4, w5, key)
    ensures UserIdAt(UserIdText(w1, w2, w3, w4, w5, key, rest)) == Some(Match(key, rest))
  {
    var s7 := "\"" + rest;
    var a := TokensText([w1, w2, w3, w4, w5], USER_ID_TOKENS, key + s7);
    UserIdSpaces(w1, w2, w3, w4, w5);
    TokensOver([w1, w2, w3, w4, w5], USER_ID_TOKENS, key + s7);
    AfterOver("users", a);
    SpanOver(key, s7, NotDoubleQuote);
    AfterOver("\"", rest);
  }

  lemma UserIdSound(t: string)
    requires UserIdAt(t).Some?
    ensures var x := UserIdAt(t).value;
            exists w1, w2, w3, w4, w5 :: UserIdParts(w1, w2, w3, w4, w5, x.cap)
                                         && t == UserIdText(w1, w2, w3, w4, w5, x.cap, x.rest)
  {
    var x := UserIdAt(t).value;
    var a := After(t, "users").value;
    AfterSplit(t, "users");
    var f := SpacedTokens(a, USER_ID_TOKENS).value;
    var ws := TokensSound(a, USER_ID_TOKENS);
    var key := Span(f, NotDoubleQuote);
    SpanSplit(f, NotDoubleQuote);
    AfterSplit(key.1, "\"");
    UserIdAssemble(t, a, ws, f, x.cap, x.rest);
  }

  lemma UserIdAssemble(t: string, a: string, ws: seq<string>, f: string, key: string, rest: string)
    requires t == "users" + a
    requires |ws| == |USER_ID_TOKENS| && forall k :: 0 <= k < |ws| ==> All(ws[k], IsSpace)
    requires a == TokensText(ws, USER_ID_TOKENS, f)
    requires f == key + ("\"" + rest) && key != [] && All(key, NotDoubleQuote)
    ensures UserIdParts(ws[0], ws[1], ws[2], ws[3], ws[4], key)
    ensures t == UserIdText(ws[0], ws[1], ws[2], ws[3], ws[4], key, rest)
  {
    assert ws == [ws[0], ws[1], ws[2], ws[3], ws[4]];
  }

  // ------------------------------------------- opening: lit word /"

  lemma WordSegmentOver(lit: string, word: string, calls: string)
    requires word != [] && All(word, IsWordChar)
    ensures WordSegment(lit + (word + ("/\"" + calls)), lit) == Some(calls)
  {
    AfterOver(lit, word + ("/\"" + calls));
    assert ("/\"" + calls)[0] == '/';
    SpanOver(word, "/\"" + calls, IsWordChar);
    AfterOver("/\"", calls);
  }

  lemma WordSegmentSplit(t: string, lit: string) returns (word: string)
    requires WordSegment(t, lit).Some?
    ensures word != [] && All(word, IsWordChar) && t == lit + (word + ("/\"" + WordSegment(t, lit).value))
  {
    var a := After(t, lit).value;
    var w := Span(a, IsWordChar);
    AfterSplit(t, lit);
    SpanSplit(a, IsWordChar);
    AfterSplit(w.1, "/\"");
    word := w.0;
  }

  // ---------------------------------- strategy 2: fetch("/api/w/").concat

  lemma JoinFirstAndLast(first: string, more: seq<string>)
    ensures Join(Present([Some(first), if more == [] then None else Some(more[|more| - 1])]), "")
            == FirstAndLast(first, more)
  {
    if more == [] {
      assert Present([Some(first), None]) == [first];
    } else {
      assert Present([Some(first), Some(more[|more| - 1])]) == [first, more[|more| - 1]];
    }
  }

  /** `ConcatFetchAt` step by step. */
  lemma ConcatFetchSteps(t: string, b: string, first: Match<string>, run: Run<string>, rest: string)
    requires WordSegment(t, "fetch(\"/api/") == Some(b)
    requires ConcatCallAt(b, false) == Some(first)
    requires CallRun(first.rest, false, None) == run
    requires After(run.rest, ")") == Some(rest)
    ensures ConcatFetchAt(t).Some? && ConcatFetchAt(t).value.cap == Join(Present([Some(first.cap), run.last]), "")
            && ConcatFetchAt(t).value.rest == rest
  {
  }

  lemma ConcatFetchComplete(word: string, first: string, more: seq<string>, rest: string)
    requires ConcatFetchParts(word, first, more)
    ensures var r := ConcatFetchAt(ConcatFetchText(word, first, more, rest));
            r.Some? && r.value.cap == FirstAndLast(first, more) && r.value.rest == rest
  {
    var chain := ChainText(more, ")" + rest);
    var calls := CallText(first, chain);
    WordSegmentOver("fetch(\"/api/", word, calls);
    CallComplete(first, chain, false);
    NoCallAtParen(rest, false);
    RepeatChain(more, ")" + rest, false, None);
    AfterOver(")", rest);
    var run := CallRun(chain, false, None);
    ConcatFetchSteps(ConcatFetchText(word, first, more, rest), calls, Match(first, chain), run, rest);
    JoinFirstAndLast(first, more);
  }

  lemma ConcatFetchSound(t: string)
    requires ConcatFetchAt(t).Some?
    ensures var x := ConcatFetchAt(t).value;
            exists word, first, more :: ConcatFetchParts(word, first, more)
                                        && t == ConcatFetchText(word, first, more, x.rest)
                                        && x.cap == FirstAndLast(first, more)
  {
    var b := WordSegment(t, "fetch(\"/api/").value;
    var word := WordSegmentSplit(t, "fetch(\"/api/");
    var first := ConcatCallAt(b, false).value;
    var run := CallRun(first.rest, false, None);
    var c := After(run.rest, ")").value;
    ConcatFetchAssemble(t, word, b, first, run, c);
  }

  lemma ConcatFetchAssemble(t: string, word: string, b: string, first: Match<string>, run: Run<string>, rest: string)
    requires word != [] && All(word, IsWordChar) && t == "fetch(\"/api/" + (word + ("/\"" + b))
    requires ConcatCallAt(b, false) == Some(first)
    requires CallRun(first.rest, false, None) == run
    requires After(run.rest, ")") == Some(rest)
    ensures exists word, first', more :: ConcatFetchParts(word, first', more)
                                         && t == ConcatFetchText(word, first', more, rest)
                                         && Join(Present([Some(first.cap), run.last]), "") == FirstAndLast(first', more)
  {
    CallSound(b, false);
    var more := RepeatSound(first.rest, false, None);
    AfterSplit(run.rest, ")");
    assert b == CallText(first.cap, ChainText(more, ")" + rest));
    JoinFirstAndLast(first.cap, more);
    assert ConcatFetchParts(word, first.cap, more);
  }

  // ------------------------------- strategy 3: "/api/w/" then .concat chain

  /** `ConcatAssignAt` step by step. */
  lemma ConcatAssignSteps(t: string, calls: string, first: Match<string>, rest: string)
    requires WordSegment(t, "\"/api/") == Some(calls)
    requires ConcatCallAt(calls, true) == Some(first)
    requires CallRun(first.rest, true, None).rest == rest
    ensures ConcatAssignAt(t).Some? && ConcatAssignAt(t).value.cap == calls[..|calls| - |rest|]
            && ConcatAssignAt(t).value.rest == rest
  {
  }

  lemma ConcatAssignComplete(word: string, lits: seq<string>, rest: string)
    requires ConcatAssignParts(word, lits, rest)
    ensures var r := ConcatAssignAt(ConcatAssignText(word, lits, rest));
            r.Some? && r.value.cap == ChainText(lits, "") && r.value.rest == rest
  {
    var calls := ChainText(lits, rest);
    var tail := ConcatAssignPieces(word, lits, rest);
    ConcatAssignSteps(ConcatAssignText(word, lits, rest), calls, Match(lits[0], tail), rest);
    ChainPrefix(lits, rest);
  }

  /** The pieces the strategy-3 matcher finds in an assignment chain. */
  lemma ConcatAssignPieces(word: string, lits: seq<string>, rest: string) returns (tail: string)
    requires ConcatAssignParts(word, lits, rest)
    ensures WordSegment(ConcatAssignText(word, lits, rest), "\"/api/") == Some(ChainText(lits, rest))
    ensures ConcatCallAt(ChainText(lits, rest), true) == Some(Match(lits[0], tail))
    ensures CallRun(tail, true, None).rest == rest
  {
    var calls := ChainText(lits, rest);
    tail := ChainText(lits[1..], rest);
    assert calls == CallText(lits[0], tail);
    WordSegmentOver("\"/api/", word, calls);
    assert CallLiteral(lits[0], true);
    CallComplete(lits[0], tail, true);
    forall k | 0 <= k < |lits[1..]| ensures CallLiteral(lits[1..][k], true) {
      assert lits[1..][k] == lits[k + 1];
    }
    RepeatChain(lits[1..], rest, true, None);
  }

  lemma ConcatAssignSound(t: string)
    requires ConcatAssignAt(t).Some?
    ensures var x := ConcatAssignAt(t).value;
            exists word, lits :: ConcatAssignParts(word, lits, x.rest)
                                 && t == ConcatAssignText(word, lits, x.rest)
                                 && x.cap == ChainText(lits, "")
  {
    var calls := WordSegment(t, "\"/api/").value;
    var word := WordSegmentSplit(t, "\"/api/");
    ConcatAssignWitness(t, word, calls);
  }

  lemma ConcatAssignWitness(t: string, word: string, calls: string)
    requires word != [] && All(word, IsWordChar) && t == "\"/api/" + (word + ("/\"" + calls))
    requires ConcatCallAt(calls, true).Some?
    ensures var rest := CallRun(ConcatCallAt(calls, true).value.rest, true, None).rest;
            exists word, lits :: ConcatAssignParts(word, lits, rest)
                                 && t == ConcatAssignText(word, lits, rest)
                                 && calls[..|calls| - |rest|] == ChainText(lits, "")
  {
    var rest := CallRun(ConcatCallAt(calls, true).value.rest, true, None).rest;
    var lits := ChainSound(calls, true);
    assert calls == ChainText(lits, rest);
    ChainPrefix(lits, rest);
    assert ConcatAssignParts(word, lits, rest);
    assert t == ConcatAssignText(word, lits, rest);
  }

  /** Rescanning the captured chain gives back one literal per call, at
      least one, so the `parts.length > 0` test after it always passes. */
  lemma ConcatAssignRescan(t: string)
    requires ConcatAssignAt(t).Some?
    ensures |ScanAll(ConcatAssignAt(t).value.cap, LooseCallAt)| >= 1
  {
    ConcatAssignSound(t);
    var x := ConcatAssignAt(t).value;
    var word, lits :| ConcatAssignParts(word, lits, x.rest)
                      && t == ConcatAssignText(word, lits, x.rest)
                      && x.cap == ChainText(lits, "");
    ScanChain(lits);
  }
}
