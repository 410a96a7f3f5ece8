/** `SearchInformations` (src/features/hltb.ts): what the scraper reads out of
    one script body, the API key and the search endpoint.

    The two extractions are static members of the class, as they are private
    helpers of its constructor in the source; the constructor stores their
    results. `ScriptInfo` is the same pair as a value, for the functional
    layer of the client. */
module SearchInfo {
  import opened Wrappers
  import opened Text
  import opened Regex
  import opened KeyPatterns
  import opened KeyFacts
  import opened EndpointPatterns
  import opened EndpointFacts

  const BASE_URL: string := "https://howlongtobeat.com/"

  // -------------------------------------------------------------- the key

  /** Strategy 3: the chain after `"/api/word/"`, rescanned call by call.
      `assignmentMatch?.[1]` must be non-empty and the rescan must find a
      call, both of which always hold (`NoKeyIff`). */
  function AssignedKey(script: string): (r: Option<string>)
  {
    match FirstMatch(script, ConcatAssignAt)
    case None => None
    case Some(calls) =>
      if calls == [] then None
      else
        var parts := ScanAll(calls, LooseCallAt);
        if |parts| > 0 then Some(Join(parts, "")) else None
  }

  /** The literals of the `.concat` calls of one endpoint match, joined. */
  function CallsKey(calls: string): string {
    Join(ScanAll(calls, QuotedCallAt), "")
  }

  /** The endpoint of the first match whose literals join to `key`. */
  function FirstAgreeing(ms: seq<EndpointMatch>, key: string): (r: Option<string>)
    decreases |ms|
  {
    if ms == [] then None
    else if CallsKey(ms[0].concatCalls) == key then Some(ms[0].endpoint)
    else FirstAgreeing(ms[1..], key)
  }

  /** What `extractSearchUrlScript` returns: nothing without a key, otherwise
      the endpoint of the first match, in text order, that carries the key. */
  function SearchEndpoint(script: string, apiKey: Option<string>): (r: Option<string>)
  {
    if !Truthy(apiKey) then None else FirstAgreeing(ScanAll(script, SearchFetchAt), apiKey.value)
  }

  lemma BaseUrlSlash()
    ensures EndsWith(BASE_URL, "/")
  {
    assert BASE_URL[|BASE_URL| - 1..] == "/";
  }

  /** `this.searchUrl.substring(1)` when the base URL ends with `/` and the
      endpoint starts with one. */
  function StripLeadingSlash(url: Option<string>): (r: Option<string>)
  {
    if EndsWith(BASE_URL, "/") && url.Some? && "/" <= url.value then Some(url.value[1..]) else url
  }

  /** The fields a `SearchInformations` for `script` ends up with. */
  datatype Info = Info(apiKey: Option<string>, searchUrl: Option<string>)

  function ScriptInfo(script: string): (r: Info)
  {
    var key := SearchInformations.ExtractApiFromScript(script);
    Info(key, StripLeadingSlash(SearchEndpoint(script, key)))
  }

  class SearchInformations {
    var searchUrl: Option<string>
    var apiKey: Option<string>

    constructor (scriptContent: string)
      ensures apiKey == ScriptInfo(scriptContent).apiKey
      ensures searchUrl == ScriptInfo(scriptContent).searchUrl
    {
      var key := ExtractApiFromScript(scriptContent);
      var url := ExtractSearchUrlScript(scriptContent, key);
      apiKey := key;
      searchUrl := url;
      if EndsWith(BASE_URL, "/") && url.Some? && "/" <= url.value {
        searchUrl := Some(url.value[1..]);
      }
    }

    /** The three strategies in order; the first one that matches decides. */
    static function ExtractApiFromScript(scriptContent: string): (r: Option<string>)
    {
      var userId := FirstMatch(scriptContent, UserIdAt);
      if Truthy(userId) then userId
      else
        match FirstMatch(scriptContent, ConcatFetchAt)
        case Some(key) => Some(key)
        case None => AssignedKey(scriptContent)
    }

    /** The loop over all endpoint matches, returning at the first one whose
        literals join to the key. */
    static method ExtractSearchUrlScript(scriptContent: string, apiKey: Option<string>) returns (r: Option<string>)
      ensures r == SearchEndpoint(scriptContent, apiKey)
    {
      var matches := ScanAll(scriptContent, SearchFetchAt);
      for i := 0 to |matches|
        invariant Truthy(apiKey) ==> FirstAgreeing(matches, apiKey.value) == FirstAgreeing(matches[i..], apiKey.value)
      {
        var endpoint := matches[i].endpoint;
        var concatMatches := ScanAll(matches[i].concatCalls, QuotedCallAt);
        var concatenated := Join(concatMatches, "");
        assert matches[i..][1..] == matches[i + 1..];
        if Truthy(apiKey) && concatenated == apiKey.value {
          return Some(endpoint);
        }
      }
      assert matches[|matches|..] == [];
      return None;
    }
  }

  // ------------------------------------------------------- the strategies

  /** Strategy 1: the leftmost `users: { id: "K" }` gives the key `K`,
      whatever the other patterns would find. */
  lemma UserIdStrategy(script: string, p: nat, w1: string, w2: string, w3: string, w4: string, w5: string,
                       key: string, rest: string)
    requires UserIdParts(w1, w2, w3, w4, w5, key)
    requires p <= |script| && script[p..] == UserIdText(w1, w2, w3, w4, w5, key, rest)
    requires forall q :: 0 <= q < p ==> UserIdAt(script[q..]).None?
    ensures SearchInformations.ExtractApiFromScript(script) == Some(key)
  {
    UserIdComplete(w1, w2, w3, w4, w5, key, rest);
    FirstMatchLeftmost(script, UserIdAt, p);
  }

  /** Strategy 2, reached when strategy 1 finds nothing: the leftmost
      `fetch("/api/word/".concat("a")...)` gives the first literal and the
      last repeated one; the literals between them are dropped. */
  lemma ConcatFetchStrategy(script: string, p: nat, word: string, first: string, more: seq<string>, rest: string)
    requires forall q :: 0 <= q <= |script| ==> UserIdAt(script[q..]).None?
    requires ConcatFetchParts(word, first, more)
    requires p <= |script| && script[p..] == ConcatFetchText(word, first, more, rest)
    requires forall q :: 0 <= q < p ==> ConcatFetchAt(script[q..]).None?
    ensures SearchInformations.ExtractApiFromScript(script) == Some(FirstAndLast(first, more))
  {
    FirstMatchNone(script, UserIdAt);
    ConcatFetchComplete(word, first, more, rest);
    FirstMatchLeftmost(script, ConcatFetchAt, p);
  }

  /** Strategy 3, reached when strategies 1 and 2 find nothing: the leftmost
      `"/api/word/"` with its chain gives all the literals joined in order,
      which is the empty key when every literal is empty. */
  lemma ConcatAssignStrategy(script: string, p: nat, word: string, lits: seq<string>, rest: string)
    requires forall q :: 0 <= q <= |script| ==> UserIdAt(script[q..]).None? && ConcatFetchAt(script[q..]).None?
    requires ConcatAssignParts(word, lits, rest)
    requires p <= |script| && script[p..] == ConcatAssignText(word, lits, rest)
    requires forall q :: 0 <= q < p ==> ConcatAssignAt(script[q..]).None?
    ensures SearchInformations.ExtractApiFromScript(script) == Some(Join(lits, ""))
  {
    FirstMatchNone(script, UserIdAt);
    FirstMatchNone(script, ConcatFetchAt);
    ConcatAssignComplete(word, lits, rest);
    FirstMatchLeftmost(script, ConcatAssignAt, p);
    ScanChain(lits);
  }

  /** The result is `null` exactly when none of the three patterns matches
      anywhere in the script. */
  lemma NoKeyIff(script: string)
    ensures SearchInformations.ExtractApiFromScript(script).None? <==>
            forall q :: 0 <= q <= |script| ==>
              UserIdAt(script[q..]).None? && ConcatFetchAt(script[q..]).None? && ConcatAssignAt(script[q..]).None?
  {
    FirstMatchNone(script, UserIdAt);
    FirstMatchNone(script, ConcatFetchAt);
    FirstMatchNone(script, ConcatAssignAt);
    if FirstMatch(script, UserIdAt).Some? {
      UserIdCapture(script);
    }
    if FirstMatch(script, ConcatAssignAt).Some? {
      AssignedKeyFound(script);
    }
  }

  lemma UserIdCapture(script: string)
    requires FirstMatch(script, UserIdAt).Some?
    ensures FirstMatch(script, UserIdAt).value != []
  {
    FirstMatchFound(script, UserIdAt);
  }

  lemma AssignedKeyFound(script: string)
    requires FirstMatch(script, ConcatAssignAt).Some?
    ensures AssignedKey(script).Some?
  {
    var s := FirstMatchSuffix(script, ConcatAssignAt);
    ConcatAssignRescan(s);
  }

  // ---------------------------------------------------------- the endpoint

  /** `FirstAgreeing` is the first agreeing match: it is `null` exactly when
      no match carries the key, and otherwise the endpoint of a match that
      carries it with none before it that does. */
  lemma {:induction false} FirstAgreeingSpec(ms: seq<EndpointMatch>, key: string)
    ensures FirstAgreeing(ms, key).None? <==> forall i :: 0 <= i < |ms| ==> CallsKey(ms[i].concatCalls) != key
    ensures FirstAgreeing(ms, key).Some? ==>
              exists i :: 0 <= i < |ms| && FirstAgreeing(ms, key).value == ms[i].endpoint
                          && CallsKey(ms[i].concatCalls) == key
                          && forall j :: 0 <= j < i ==> CallsKey(ms[j].concatCalls) != key
    decreases |ms|
  {
    if ms != [] && CallsKey(ms[0].concatCalls) != key {
      FirstAgreeingSpec(ms[1..], key);
      forall i | 1 <= i < |ms| ensures ms[1..][i - 1] == ms[i] { }
      if FirstAgreeing(ms[1..], key).Some? {
        var i :| 0 <= i < |ms[1..]| && FirstAgreeing(ms[1..], key).value == ms[1..][i].endpoint
                 && CallsKey(ms[1..][i].concatCalls) == key
                 && forall j :: 0 <= j < i ==> CallsKey(ms[1..][j].concatCalls) != key;
        assert FirstAgreeing(ms, key).value == ms[i + 1].endpoint;
        forall j | 0 <= j < i + 1 ensures CallsKey(ms[j].concatCalls) != key {
          if j > 0 { assert ms[j] == ms[1..][j - 1]; }
        }
      }
    }
  }

  predicate ApiEndpoints(ms: seq<EndpointMatch>) {
    forall i :: 0 <= i < |ms| ==> "/api/" <= ms[i].endpoint
  }

  /** Every endpoint the scan finds starts with `/api/`. */
  lemma ScannedEndpoints(t: string)
    ensures ApiEndpoints(ScanAll(t, SearchFetchAt))
  {
    ScanAllCaps(t, SearchFetchAt, (e: EndpointMatch) => "/api/" <= e.endpoint);
  }

  /** The stored search URL, when there is one, is an `api/` path relative
      to the base URL: the endpoint with its one leading `/` removed. */
  lemma StoredSearchUrl(script: string, key: Option<string>)
    ensures var u := StripLeadingSlash(SearchEndpoint(script, key));
            u.Some? ==> "api/" <= u.value && SearchEndpoint(script, key) == Some("/" + u.value)
  {
    if Truthy(key) {
      ScannedEndpoints(script);
      AgreeingIsApi(ScanAll(script, SearchFetchAt), key.value);
    }
    StripApi(SearchEndpoint(script, key));
  }

  /** The endpoint chosen among `/api/` endpoints is one. */
  lemma AgreeingIsApi(ms: seq<EndpointMatch>, key: string)
    requires ApiEndpoints(ms)
    ensures FirstAgreeing(ms, key).Some? ==> "/api/" <= FirstAgreeing(ms, key).value
  {
    FirstAgreeingSpec(ms, key);
  }

  /** Stripping an `/api/` endpoint leaves an `api/` path. */
  lemma StripApi(e: Option<string>)
    requires e.Some? ==> "/api/" <= e.value
    ensures var u := StripLeadingSlash(e); u.Some? ==> "api/" <= u.value && e == Some("/" + u.value)
  {
    BaseUrlSlash();
    if e.Some? {
      assert e.value == "/" + e.value[1..];
    }
  }

  /** The loop passes over endpoint matches whose literals do not spell the
      key: when the scan finds such matches `pre` and then a match `m` that
      does spell it, `m`'s endpoint is chosen. */
  lemma AgreeingEndpointChosen(script: string, key: string, pre: seq<EndpointMatch>, m: EndpointMatch,
                               post: seq<EndpointMatch>)
    requires key != []
    requires ScanAll(script, SearchFetchAt) == pre + [m] + post
    requires forall i :: 0 <= i < |pre| ==> CallsKey(pre[i].concatCalls) != key
    requires CallsKey(m.concatCalls) == key
    ensures SearchEndpoint(script, Some(key)) == Some(m.endpoint)
  {
    AgreeingChosen(ScanAll(script, SearchFetchAt), key, pre, m, post);
  }

  lemma AgreeingChosen(ms: seq<EndpointMatch>, key: string, pre: seq<EndpointMatch>, m: EndpointMatch,
                       post: seq<EndpointMatch>)
    requires ms == pre + [m] + post
    requires forall i :: 0 <= i < |pre| ==> CallsKey(pre[i].concatCalls) != key
    requires CallsKey(m.concatCalls) == key
    ensures FirstAgreeing(ms, key) == Some(m.endpoint)
  {
    FirstAgreeingAfter(pre, [m] + post, key);
    assert ms == pre + ([m] + post);
    assert FirstAgreeing([m] + post, key) == Some(m.endpoint);
  }

  /** Matches that disagree with the key are passed over. */
  lemma {:induction false} FirstAgreeingAfter(pre: seq<EndpointMatch>, ms: seq<EndpointMatch>, key: string)
    requires forall i :: 0 <= i < |pre| ==> CallsKey(pre[i].concatCalls) != key
    ensures FirstAgreeing(pre + ms, key) == FirstAgreeing(ms, key)
    decreases |pre|
  {
    if pre != [] {
      assert (pre + ms)[0] == pre[0];
      assert (pre + ms)[1..] == pre[1..] + ms;
      forall i | 0 <= i < |pre[1..]| ensures CallsKey(pre[1..][i].concatCalls) != key {
        assert pre[1..][i] == pre[i + 1];
      }
      FirstAgreeingAfter(pre[1..], ms, key);
    } else {
      assert pre + ms == ms;
    }
  }

  /** The endpoint of the first `fetch(` in the script is chosen when its
      literals join to the key. */
  lemma FirstEndpointChosen(script: string, p: nat, f: FetchCall, rest: string, key: string)
    requires FetchParts(f)
    requires p <= |script| && script[p..] == SearchFetchText(f, rest)
    requires forall q :: 0 <= q < p ==> SearchFetchAt(script[q..]).None?
    requires key != [] && Join(Literals(f.calls), "") == key
    ensures SearchEndpoint(script, Some(key)) == Some("/api/" + f.path)
  {
    var t := script[p..];
    ScanAllSkip(script, SearchFetchAt, p);
    SearchFetchComplete(f, rest);
    ScanAllStep(t, SearchFetchAt);
    ScanCalls(f.calls);
  }
}
