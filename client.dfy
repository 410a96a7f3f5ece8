/** The requests of src/features/hltb.ts: `fetchSearchInfo`, which reads the
    home page, collects its script URLs and returns the information of the
    first script that yields a key; `search`, which obtains a key in two
    passes and then tries the search request with the key in the URL and,
    failing that, in the payload; and `getGameTitle`.

    The network is a fixed `World`: what each GET and each POST would
    produce. A `Network` object performs the requests one at a time and keeps
    the trace of those it has sent, so that the methods can be held to the
    exact sequence of requests of the source. Each method is proved equal to
    a function (`FetchSearchInfoSpec`, `SearchSpec`, `GameTitleSpec`) that
    gives the result and the trace, and the properties of the source are
    lemmas about those functions. */
module Client {
  import opened Wrappers
  import opened Text
  import opened Payload
  import opened SearchInfo
  import opened Title

  const GAME_URL: string := BASE_URL + "game"
  const FALLBACK_SEARCH_URL_SUFFIX: string := "api/s/"

  /** One entry of the search results. The completion times are in seconds
      and may be `null`. */
  datatype GameResult = GameResult(gameId: int, gameName: string, gameAlias: string, compMain: Option<int>,
                                   compPlus: Option<int>, comp100: Option<int>, profilePlatform: string)

  /** The part of the search response the bot reads; `data` may be absent. */
  datatype SearchResults = SearchResults(data: Option<seq<GameResult>>)

  /** What one request comes to: `Threw` when `fetch` rejects; otherwise the
      status is `ok` or not, and `body` is `None` when reading the body
      (`text()` or `json()`) throws. */
  datatype Response<B> = Threw | Answered(ok: bool, body: Option<B>)

  /** The response is ok and its body could be read. */
  predicate Succeeded<B>(r: Response<B>) {
    r.Answered? && r.ok && r.body.Some?
  }

  datatype Request = Get(url: string) | Post(url: string, payload: SearchPayload)

  /** The outside world: the response to a GET of each URL; the `src`
      attributes of the `script[src]` elements of a page, in document order
      (absent attributes left out); `new URL(src, BASE_URL).toString()`,
      `None` where it throws; the response to a POST of each payload to each
      URL; the text of the first `<title>` of a page. */
  datatype World = World(
    pages: string -> Response<string>,
    scriptSrcs: string -> seq<string>,
    resolve: string -> Option<string>,
    search: (string, SearchPayload) -> Response<SearchResults>,
    titleText: string -> string)

  /** The result of a sequence of requests and the requests sent. */
  datatype Outcome<T> = Outcome(value: Option<T>, requests: seq<Request>)

  /** The sending side of the world: every request is appended to `log`. */
  class Network {
    const world: World
    var log: seq<Request>

    constructor (world: World)
      ensures this.world == world && log == []
    {
      this.world := world;
      log := [];
    }

    method Get(url: string) returns (r: Response<string>)
      modifies this
      ensures r == world.pages(url)
      ensures log == old(log) + [Request.Get(url)]
    {
      r := world.pages(url);
      log := log + [Request.Get(url)];
    }

    method Post(url: string, payload: SearchPayload) returns (r: Response<SearchResults>)
      modifies this
      ensures r == world.search(url, payload)
      ensures log == old(log) + [Request.Post(url, payload)]
    {
      r := world.search(url, payload);
      log := log + [Request.Post(url, payload)];
    }
  }

  // ------------------------------------------------------ fetchSearchInfo

  /** A script is kept when its `src` is not empty and either every script
      is wanted or the `src` contains `_app-`. */
  predicate Kept(src: string, parseAllScripts: bool) {
    src != "" && (parseAllScripts || Contains(src, "_app-"))
  }

  /** The URLs the `each` callback pushes, in order, or `None` when
      resolving a kept `src` throws (which ends `fetchSearchInfo`). */
  function ScriptUrls(srcs: seq<string>, parseAllScripts: bool, resolve: string -> Option<string>)
    : (r: Option<seq<string>>)
    decreases |srcs|
  {
    if srcs == [] then Some([]) else
    var init := ScriptUrls(srcs[..|srcs| - 1], parseAllScripts, resolve);
    var src := srcs[|srcs| - 1];
    if init.None? then None
    else if !Kept(src, parseAllScripts) then init
    else if resolve(src).None? then None
    else Some(init.value + [resolve(src).value])
  }

  /** The URLs are exactly the resolutions of the kept sources, in their
      order: the `k`-th URL is the resolution of the `k`-th kept source. */
  lemma {:induction false} ScriptUrlsSpec(srcs: seq<string>, parseAllScripts: bool, resolve: string -> Option<string>)
    ensures var r := ScriptUrls(srcs, parseAllScripts, resolve);
            r.None? <==> exists i :: 0 <= i < |srcs| && Kept(srcs[i], parseAllScripts) && resolve(srcs[i]).None?
    ensures var r := ScriptUrls(srcs, parseAllScripts, resolve);
            r.Some? ==> |r.value| == |KeptSources(srcs, parseAllScripts)|
                        && forall k :: 0 <= k < |r.value| ==>
                             Some(r.value[k]) == resolve(KeptSources(srcs, parseAllScripts)[k])
    decreases |srcs|
  {
    if srcs != [] {
      var init := srcs[..|srcs| - 1];
      ScriptUrlsSpec(init, parseAllScripts, resolve);
      var last := |srcs| - 1;
      if exists i :: 0 <= i < |init| && Kept(init[i], parseAllScripts) && resolve(init[i]).None? {
        var i :| 0 <= i < |init| && Kept(init[i], parseAllScripts) && resolve(init[i]).None?;
        assert srcs[i] == init[i];
      } else {
        forall i | 0 <= i < |srcs| - 1 && Kept(srcs[i], parseAllScripts)
          ensures resolve(srcs[i]).Some?
        {
          assert srcs[i] == init[i];
        }
      }
    }
  }

  /** The sources the filter keeps, in order. */
  function KeptSources(srcs: seq<string>, parseAllScripts: bool): (r: seq<string>)
    ensures forall x :: x in r <==> x in srcs && Kept(x, parseAllScripts)
    decreases |srcs|
  {
    if srcs == [] then [] else
    var init := KeptSources(srcs[..|srcs| - 1], parseAllScripts);
    assert srcs == srcs[..|srcs| - 1] + [srcs[|srcs| - 1]];
    if Kept(srcs[|srcs| - 1], parseAllScripts) then init + [srcs[|srcs| - 1]] else init
  }

  /** The `each` loop: one pass over the sources, pushing the resolution of
      every kept one. */
  method CollectScriptUrls(srcs: seq<string>, parseAllScripts: bool, resolve: string -> Option<string>)
    returns (scriptUrls: Option<seq<string>>)
    ensures scriptUrls == ScriptUrls(srcs, parseAllScripts, resolve)
  {
    var urls: seq<string> := [];
    for i := 0 to |srcs|
      invariant ScriptUrls(srcs[..i], parseAllScripts, resolve) == Some(urls)
    {
      assert srcs[..i + 1][..i] == srcs[..i];
      var src := srcs[i];
      if Kept(src, parseAllScripts) {
        var fullUrl := resolve(src);
        if fullUrl.None? {
          ScriptUrlsFailure(srcs, i + 1, parseAllScripts, resolve);
          return None;
        }
        urls := urls + [fullUrl.value];
      }
    }
    assert srcs[..|srcs|] == srcs;
    return Some(urls);
  }

  /** Once a prefix fails to resolve, the whole sequence does. */
  lemma {:induction false} ScriptUrlsFailure(srcs: seq<string>, n: nat, parseAllScripts: bool,
                                             resolve: string -> Option<string>)
    requires n <= |srcs| && ScriptUrls(srcs[..n], parseAllScripts, resolve).None?
    ensures ScriptUrls(srcs, parseAllScripts, resolve).None?
    decreases |srcs| - n
  {
    if n < |srcs| {
      assert srcs[..n + 1][..n] == srcs[..n];
      ScriptUrlsFailure(srcs, n + 1, parseAllScripts, resolve);
    } else {
      assert srcs[..n] == srcs;
    }
  }

  /** What fetching one script gives: its information when the response is
      ok, its text can be read and it yields a truthy key; nothing otherwise
      (the loop goes on to the next script). */
  function ScriptHit(world: World, url: string): (r: Option<Info>)
  {
    var resp := world.pages(url);
    if !Succeeded(resp) then None else
    var info := ScriptInfo(resp.body.value);
    if Truthy(info.apiKey) then Some(info) else None
  }

  /** GETs of the given URLs, in order. */
  function Gets(urls: seq<string>): (r: seq<Request>)
    ensures |r| == |urls| && forall k :: 0 <= k < |urls| ==> r[k] == Get(urls[k])
    decreases |urls|
  {
    if urls == [] then [] else Gets(urls[..|urls| - 1]) + [Get(urls[|urls| - 1])]
  }

  /** `ScriptHit` of a world, as a function of the URL. */
  function HitOf(world: World): string -> Option<Info> {
    url => ScriptHit(world, url)
  }

  /** The `for` loop over the script URLs, for any test `hit` of a URL: the
      first hit, and the scripts fetched up to and including it. */
  function ScanScripts(hit: string -> Option<Info>, urls: seq<string>): (r: Outcome<Info>)
    decreases |urls|
  {
    if urls == [] then Outcome(None, []) else
    if hit(urls[0]).Some? then Outcome(hit(urls[0]), [Get(urls[0])])
    else var rest := ScanScripts(hit, urls[1..]); Outcome(rest.value, [Get(urls[0])] + rest.requests)
  }

  /** `fetchSearchInfo(parseAllScripts)`: fetch the home page; on failure
      nothing more is sent; otherwise scan its script URLs. */
  function FetchSearchInfoSpec(world: World, parseAllScripts: bool): (r: Outcome<Info>)
  {
    var home := world.pages(BASE_URL);
    if !Succeeded(home) then Outcome(None, [Get(BASE_URL)]) else
    var urls := ScriptUrls(world.scriptSrcs(home.body.value), parseAllScripts, world.resolve);
    if urls.None? then Outcome(None, [Get(BASE_URL)]) else
    var scan := ScanScripts(HitOf(world), urls.value);
    Outcome(scan.value, [Get(BASE_URL)] + scan.requests)
  }

  /** The first script with a key wins: the scan finds nothing exactly when
      no script hits, having then fetched every script. */
  lemma {:induction false} ScanScriptsNone(hit: string -> Option<Info>, urls: seq<string>)
    ensures var s := ScanScripts(hit, urls);
            s.value.None? <==> forall i :: 0 <= i < |urls| ==> hit(urls[i]).None?
    ensures var s := ScanScripts(hit, urls);
            s.value.None? ==> s.requests == Gets(urls)
    decreases |urls|
  {
    if urls != [] {
      var tail := urls[1..];
      ScanScriptsNone(hit, tail);
      if hit(urls[0]).None? {
        NoHitShift(hit, urls);
      }
    }
  }

  /** No hit among all the URLs is a miss at the first and no hit after it. */
  lemma NoHitShift(hit: string -> Option<Info>, urls: seq<string>)
    requires urls != []
    ensures (forall i :: 0 <= i < |urls| ==> hit(urls[i]).None?) <==>
            hit(urls[0]).None? && forall i :: 0 <= i < |urls[1..]| ==> hit(urls[1..][i]).None?
    ensures [Get(urls[0])] + Gets(urls[1..]) == Gets(urls)
  {
    forall i | 0 <= i < |urls| && i > 0 ensures urls[i] == urls[1..][i - 1] { }
    var a := [Get(urls[0])] + Gets(urls[1..]);
    forall k | 0 <= k < |urls| ensures a[k] == Gets(urls)[k] {
      if k > 0 { assert a[k] == Gets(urls[1..])[k - 1]; }
    }
  }

  /** Otherwise its result is the hit of some script `i`, no script before
      `i` hits, and exactly the scripts up to `i` were fetched. */
  lemma {:induction false} ScanScriptsFirstHit(hit: string -> Option<Info>, urls: seq<string>)
    requires ScanScripts(hit, urls).value.Some?
    ensures var s := ScanScripts(hit, urls);
            exists i :: 0 <= i < |urls| && s.value == hit(urls[i])
                        && (forall j :: 0 <= j < i ==> hit(urls[j]).None?)
                        && s.requests == Gets(urls[..i + 1])
    decreases |urls|
  {
    var s := ScanScripts(hit, urls);
    if hit(urls[0]).Some? {
      GetsCons(urls, 1);
      assert s.requests == Gets(urls[..1]);
    } else {
      var tail := urls[1..];
      var t := ScanScripts(hit, tail);
      assert s.value == t.value && s.requests == [Get(urls[0])] + t.requests;
      ScanScriptsFirstHit(hit, tail);
      var i :| 0 <= i < |tail| && t.value == hit(tail[i])
               && (forall j :: 0 <= j < i ==> hit(tail[j]).None?)
               && t.requests == Gets(tail[..i + 1]);
      FirstHitShift(hit, urls, i, t.requests);
    }
  }

  /** A hit at `i` of the URLs after a miss is a hit at `i + 1` of all of them. */
  lemma FirstHitShift(hit: string -> Option<Info>, urls: seq<string>, i: nat, requests: seq<Request>)
    requires i + 1 < |urls| && hit(urls[0]).None?
    requires forall j :: 0 <= j < i ==> hit(urls[1..][j]).None?
    requires requests == Gets(urls[1..][..i + 1])
    ensures urls[i + 1] == urls[1..][i]
    ensures forall j :: 0 <= j < i + 1 ==> hit(urls[j]).None?
    ensures [Get(urls[0])] + requests == Gets(urls[..i + 2])
  {
    GetsCons(urls, i + 2);
    forall j | 0 <= j < i + 1 ensures hit(urls[j]).None? {
      if j > 0 { assert urls[j] == urls[1..][j - 1]; }
    }
  }

  /** The GETs of a prefix are the first GET and the GETs of the rest. */
  lemma GetsCons(urls: seq<string>, n: nat)
    requires 1 <= n <= |urls|
    ensures Gets(urls[..n]) == [Get(urls[0])] + Gets(urls[1..][..n - 1])
  {
    var a := Gets(urls[..n]);
    var b := [Get(urls[0])] + Gets(urls[1..][..n - 1]);
    assert |a| == |b|;
    forall k | 0 <= k < |a| ensures a[k] == b[k] {
      if k > 0 { assert urls[..n][k] == urls[1..][..n - 1][k - 1]; }
    }
  }

  /** The loop, step by step: when script `i` does not hit, the scan from
      `i` is that fetch followed by the scan from `i + 1`. */
  lemma ScanScriptsStep(hit: string -> Option<Info>, urls: seq<string>, i: nat)
    requires i < |urls| && hit(urls[i]).None?
    ensures ScanScripts(hit, urls[i..]).value == ScanScripts(hit, urls[i + 1..]).value
    ensures Gets(urls[..i]) + ScanScripts(hit, urls[i..]).requests
            == Gets(urls[..i + 1]) + ScanScripts(hit, urls[i + 1..]).requests
    ensures Gets(urls[..i]) + [Get(urls[i])] == Gets(urls[..i + 1])
  {
    assert urls[i..][1..] == urls[i + 1..];
    assert urls[..i + 1][..i] == urls[..i];
    var rest := ScanScripts(hit, urls[i + 1..]).requests;
    assert Gets(urls[..i]) + ([Get(urls[i])] + rest) == (Gets(urls[..i]) + [Get(urls[i])]) + rest;
  }

  /** `fetchSearchInfo`: the home page, the `each` loop, then the scripts. */
  method FetchSearchInfo(net: Network, parseAllScripts: bool) returns (r: SearchInformations?)
    modifies net
    ensures var spec := FetchSearchInfoSpec(net.world, parseAllScripts);
            (r == null <==> spec.value.None?)
            && (r != null ==> r.apiKey == spec.value.value.apiKey && r.searchUrl == spec.value.value.searchUrl)
            && net.log == old(net.log) + spec.requests
  {
    var response := net.Get(BASE_URL);
    if !Succeeded(response) {
      return null;
    }
    var html := response.body.value;
    var scriptUrls := CollectScriptUrls(net.world.scriptSrcs(html), parseAllScripts, net.world.resolve);
    if scriptUrls.None? {
      return null;
    }
    r := FetchScripts(net, scriptUrls.value);
  }

  /** The `for` loop of `fetchSearchInfo`: one fetch per script URL until a
      script yields a key; a failed fetch, an unreadable body or a script
      without a key moves on to the next URL. */
  method FetchScripts(net: Network, urls: seq<string>) returns (r: SearchInformations?)
    modifies net
    ensures var spec := ScanScripts(HitOf(net.world), urls);
            (r == null <==> spec.value.None?)
            && (r != null ==> r.apiKey == spec.value.value.apiKey && r.searchUrl == spec.value.value.searchUrl)
            && net.log == old(net.log) + spec.requests
  {
    ghost var hit := HitOf(net.world);
    assert urls[0..] == urls;
    for i := 0 to |urls|
      invariant ScanScripts(hit, urls).value == ScanScripts(hit, urls[i..]).value
      invariant ScanScripts(hit, urls).requests == Gets(urls[..i]) + ScanScripts(hit, urls[i..]).requests
      invariant net.log == old(net.log) + Gets(urls[..i])
    {
      var searchInfo := FetchScript(net, urls[i]);
      if searchInfo != null {
        ScanScriptsHit(hit, urls, i);
        return searchInfo;
      }
      ScanScriptsStep(hit, urls, i);
    }
    assert urls[|urls|..] == [];
    return null;
  }

  /** One iteration: fetch the script and keep its information when it has
      a key. */
  method FetchScript(net: Network, url: string) returns (r: SearchInformations?)
    modifies net
    ensures var hit := HitOf(net.world)(url);
            (r == null <==> hit.None?)
            && (r != null ==> r.apiKey == hit.value.apiKey && r.searchUrl == hit.value.searchUrl)
            && net.log == old(net.log) + [Get(url)]
  {
    var scriptResponse := net.Get(url);
    if Succeeded(scriptResponse) {
      var searchInfo := new SearchInformations(scriptResponse.body.value);
      if Truthy(searchInfo.apiKey) {
        return searchInfo;
      }
    }
    return null;
  }

  /** The loop's exit: when script `i` hits, the scan from `i` is that hit
      and that one fetch. */
  lemma ScanScriptsHit(hit: string -> Option<Info>, urls: seq<string>, i: nat)
    requires i < |urls| && hit(urls[i]).Some?
    ensures ScanScripts(hit, urls[i..]) == Outcome(hit(urls[i]), [Get(urls[i])])
  {
    assert urls[i..][0] == urls[i];
  }

  /** What a scripts' hit always carries: a truthy key, and a search URL
      (when there is one) relative to the base URL under `api/`. */
  predicate ApiRelative(info: Info) {
    info.searchUrl.None? || "api/" <= info.searchUrl.value
  }

  lemma HitKeyAndUrl(world: World, url: string)
    requires ScriptHit(world, url).Some?
    ensures Truthy(ScriptHit(world, url).value.apiKey) && ApiRelative(ScriptHit(world, url).value)
  {
    var text := world.pages(url).body.value;
    StoredSearchUrl(text, SearchInformations.ExtractApiFromScript(text));
  }

  /** `fetchSearchInfo` returns information only with a truthy key and an
      `api/` search URL, and it is the information of one of the scripts of
      the home page. */
  lemma FetchSearchInfoKey(world: World, parseAllScripts: bool)
    ensures var v := FetchSearchInfoSpec(world, parseAllScripts).value;
            v.Some? ==> Truthy(v.value.apiKey) && ApiRelative(v.value)
    ensures var v := FetchSearchInfoSpec(world, parseAllScripts).value;
            var home := world.pages(BASE_URL);
            v.Some? ==>
              Succeeded(home)
              && var urls := ScriptUrls(world.scriptSrcs(home.body.value), parseAllScripts, world.resolve);
                 urls.Some? && exists u :: u in urls.value && ScriptHit(world, u) == v
  {
    FetchSearchInfoApi(world, parseAllScripts);
    var home := world.pages(BASE_URL);
    if Succeeded(home) {
      var urls := ScriptUrls(world.scriptSrcs(home.body.value), parseAllScripts, world.resolve);
      if urls.Some? && ScanScripts(HitOf(world), urls.value).value.Some? {
        ScanScriptsFirstHit(HitOf(world), urls.value);
        var i :| 0 <= i < |urls.value| && ScanScripts(HitOf(world), urls.value).value == HitOf(world)(urls.value[i]);
        assert urls.value[i] in urls.value;
      }
    }
  }

  /** The key and search URL part of `FetchSearchInfoKey`. */
  lemma FetchSearchInfoApi(world: World, parseAllScripts: bool)
    ensures var v := FetchSearchInfoSpec(world, parseAllScripts).value;
            v.Some? ==> Truthy(v.value.apiKey) && ApiRelative(v.value)
  {
    var home := world.pages(BASE_URL);
    if Succeeded(home) {
      var urls := ScriptUrls(world.scriptSrcs(home.body.value), parseAllScripts, world.resolve);
      if urls.Some? && ScanScripts(HitOf(world), urls.value).value.Some? {
        ScanScriptsFirstHit(HitOf(world), urls.value);
        var i :| 0 <= i < |urls.value| && ScanScripts(HitOf(world), urls.value).value == HitOf(world)(urls.value[i]);
        HitKeyAndUrl(world, urls.value[i]);
      }
    }
  }

  // ---------------------------------------------------------------- search

  /** The information carries a usable key (`searchInfo?.apiKey`). */
  predicate HasKey(info: Option<Info>) {
    info.Some? && Truthy(info.value.apiKey)
  }

  /** The two passes: the `_app-` scripts, then, when they give no key, all
      scripts. */
  function KeyPasses(world: World): (r: Outcome<Info>)
  {
    var first := FetchSearchInfoSpec(world, false);
    if HasKey(first.value) then first else
    var second := FetchSearchInfoSpec(world, true);
    Outcome(second.value, first.requests + second.requests)
  }

  /** `baseSearchUrl`: the base URL with exactly one `/`, then the stored
      search URL (or `api/s/`) without its leading `/`. */
  function SearchBaseUrl(searchUrl: Option<string>): (r: string)
  {
    var searchUrlSuffix := searchUrl.GetOr(FALLBACK_SEARCH_URL_SUFFIX);
    var base := BASE_URL + (if EndsWith(BASE_URL, "/") then "" else "/");
    var suffix := if "/" <= searchUrlSuffix then searchUrlSuffix[1..] else searchUrlSuffix;
    base + suffix
  }

  /** For information as `fetchSearchInfo` returns it, the search URL is the
      base URL followed by the stored URL, or by `api/s/`: an address under
      `https://howlongtobeat.com/api/`. */
  lemma SearchBaseUrlUnderApi(info: Info)
    requires ApiRelative(info)
    ensures SearchBaseUrl(info.searchUrl) == BASE_URL + info.searchUrl.GetOr(FALLBACK_SEARCH_URL_SUFFIX)
    ensures BASE_URL + "api/" <= SearchBaseUrl(info.searchUrl)
  {
    BaseUrlSlash();
    var suffix := info.searchUrl.GetOr(FALLBACK_SEARCH_URL_SUFFIX);
    assert "api/" <= suffix;
    assert suffix[0] == 'a';
    assert (BASE_URL + "") + suffix == BASE_URL + suffix;
  }

  /** The two search attempts: the key in the URL with a payload without it;
      when that response is not ok or cannot be read, the key in the payload. */
  function SearchAttempts(world: World, baseSearchUrl: string, apiKey: string, gameName: string,
                          searchModifiers: SearchModifiers, page: int): (r: Outcome<SearchResults>)
  {
    var payloadForUrlKey := SearchRequestData(gameName, searchModifiers, page, None);
    var first := world.search(baseSearchUrl + apiKey, payloadForUrlKey);
    if Succeeded(first) then Outcome(first.body, [Post(baseSearchUrl + apiKey, payloadForUrlKey)]) else
    var payloadForBodyKey := SearchRequestData(gameName, searchModifiers, page, Some(apiKey));
    var second := world.search(baseSearchUrl, payloadForBodyKey);
    Outcome(if Succeeded(second) then second.body else None,
            [Post(baseSearchUrl + apiKey, payloadForUrlKey), Post(baseSearchUrl, payloadForBodyKey)])
  }

  /** `search(gameName, searchModifiers, page)`: nothing for a blank name;
      nothing, after the passes, without a key; otherwise the attempts. */
  function SearchSpec(world: World, gameName: string, searchModifiers: SearchModifiers, page: int)
    : (r: Outcome<SearchResults>)
  {
    if gameName == "" || Trim(gameName) == "" then Outcome(None, []) else
    var found := KeyPasses(world);
    if !HasKey(found.value) then Outcome(None, found.requests) else
    var info := found.value.value;
    var attempts := SearchAttempts(world, SearchBaseUrl(info.searchUrl), info.apiKey.value, gameName, searchModifiers, page);
    Outcome(attempts.value, found.requests + attempts.requests)
  }

  /** `search`. */
  method Search(net: Network, gameName: string, searchModifiers: SearchModifiers, page: int)
    returns (r: Option<SearchResults>)
    modifies net
    ensures r == SearchSpec(net.world, gameName, searchModifiers, page).value
    ensures net.log == old(net.log) + SearchSpec(net.world, gameName, searchModifiers, page).requests
  {
    if gameName == "" || |Trim(gameName)| == 0 {
      return None;
    }
    var searchInfo := ObtainSearchInfo(net);
    if searchInfo == null || !Truthy(searchInfo.apiKey) {
      return None;
    }
    ghost var found := net.log;
    var apiKey := searchInfo.apiKey.value;
    var baseSearchUrl := SearchBaseUrl(searchInfo.searchUrl);
    r := TryBothAttempts(net, baseSearchUrl, apiKey, gameName, searchModifiers, page);
    SearchWithKey(net.world, gameName, searchModifiers, page);
    AppendAssoc(old(net.log), KeyPasses(net.world).requests,
                SearchAttempts(net.world, baseSearchUrl, apiKey, gameName, searchModifiers, page).requests);
  }

  /** With a non-blank name and a key, the search is the passes followed by
      the attempts. */
  lemma SearchWithKey(world: World, gameName: string, searchModifiers: SearchModifiers, page: int)
    requires gameName != "" && |Trim(gameName)| != 0 && HasKey(KeyPasses(world).value)
    ensures var info := KeyPasses(world).value.value;
            var a := SearchAttempts(world, SearchBaseUrl(info.searchUrl), info.apiKey.value, gameName, searchModifiers, page);
            SearchSpec(world, gameName, searchModifiers, page) == Outcome(a.value, KeyPasses(world).requests + a.requests)
  {
  }

  lemma AppendAssoc(a: seq<Request>, b: seq<Request>, c: seq<Request>)
    ensures (a + b) + c == a + (b + c)
  {
  }

  /** The two passes of `fetchSearchInfo`. */
  method ObtainSearchInfo(net: Network) returns (searchInfo: SearchInformations?)
    modifies net
    ensures var spec := KeyPasses(net.world);
            (searchInfo == null <==> spec.value.None?)
            && (searchInfo != null ==> searchInfo.apiKey == spec.value.value.apiKey
                                       && searchInfo.searchUrl == spec.value.value.searchUrl)
            && net.log == old(net.log) + spec.requests
  {
    searchInfo := FetchSearchInfo(net, false);
    if searchInfo == null || !Truthy(searchInfo.apiKey) {
      ghost var mid := net.log;
      searchInfo := FetchSearchInfo(net, true);
      assert net.log == mid + FetchSearchInfoSpec(net.world, true).requests;
      assert mid == old(net.log) + FetchSearchInfoSpec(net.world, false).requests;
    }
  }

  /** Attempt 1, then attempt 2 when attempt 1 does not succeed. */
  method TryBothAttempts(net: Network, baseSearchUrl: string, apiKey: string, gameName: string,
                         searchModifiers: SearchModifiers, page: int)
    returns (r: Option<SearchResults>)
    modifies net
    ensures r == SearchAttempts(net.world, baseSearchUrl, apiKey, gameName, searchModifiers, page).value
    ensures net.log == old(net.log) + SearchAttempts(net.world, baseSearchUrl, apiKey, gameName, searchModifiers, page).requests
  {
    var searchUrlWithKey := baseSearchUrl + apiKey;
    var payloadForUrlKey := GetSearchRequestData(gameName, searchModifiers, page, None);
    var response := net.Post(searchUrlWithKey, payloadForUrlKey);
    if Succeeded(response) {
      return response.body;
    }
    var payloadForBodyKey := GetSearchRequestData(gameName, searchModifiers, page, Some(apiKey));
    response := net.Post(baseSearchUrl, payloadForBodyKey);
    if Succeeded(response) {
      return response.body;
    }
    return None;
  }

  // ------------------------------------------------------ search, properties

  /** A blank name sends no request at all; any other name starts with the
      home page. */
  lemma SearchBlankName(world: World, gameName: string, searchModifiers: SearchModifiers, page: int)
    ensures var reqs := SearchSpec(world, gameName, searchModifiers, page).requests;
            (reqs == [] <==> All(gameName, IsSpace))
            && (reqs != [] ==> reqs[0] == Get(BASE_URL))
    ensures All(gameName, IsSpace) ==> SearchSpec(world, gameName, searchModifiers, page).value.None?
  {
    TrimEmptyIff(gameName);
    if gameName == "" {
      assert All(gameName, IsSpace);
    }
  }

  /** The all-scripts pass runs only when the `_app-` pass finds no key:
      the trace starts with the first pass; with a key, everything after it
      is a search POST; without one, the second pass comes next. */
  lemma SearchPasses(world: World, gameName: string, searchModifiers: SearchModifiers, page: int)
    requires !All(gameName, IsSpace)
    ensures var reqs := SearchSpec(world, gameName, searchModifiers, page).requests;
            var first := FetchSearchInfoSpec(world, false);
            first.requests <= reqs
            && (first.value.Some? ==> forall k :: |first.requests| <= k < |reqs| ==> reqs[k].Post?)
            && (first.value.None? ==> first.requests + FetchSearchInfoSpec(world, true).requests <= reqs)
  {
    TrimEmptyIff(gameName);
    FetchSearchInfoApi(world, false);
    var found := KeyPasses(world);
    var tail := if HasKey(found.value) then SearchTail(world, found.value.value, gameName, searchModifiers, page) else [];
    PassesPrefix(FetchSearchInfoSpec(world, false), FetchSearchInfoSpec(world, true), found, tail,
                 SearchSpec(world, gameName, searchModifiers, page).requests);
  }

  /** The requests of the attempts with the key and search URL of `info`. */
  function SearchTail(world: World, info: Info, gameName: string, searchModifiers: SearchModifiers, page: int)
    : (r: seq<Request>)
    requires Truthy(info.apiKey)
    ensures forall k :: 0 <= k < |r| ==> r[k].Post?
  {
    SearchAttempts(world, SearchBaseUrl(info.searchUrl), info.apiKey.value, gameName, searchModifiers, page).requests
  }

  /** The trace of two passes followed by POSTs, on abstract outcomes. */
  lemma PassesPrefix(first: Outcome<Info>, second: Outcome<Info>, found: Outcome<Info>, tail: seq<Request>,
                     reqs: seq<Request>)
    requires first.value.Some? ==> HasKey(first.value)
    requires found == if HasKey(first.value) then first else Outcome(second.value, first.requests + second.requests)
    requires reqs == found.requests + tail
    requires HasKey(first.value) ==> forall k :: 0 <= k < |tail| ==> tail[k].Post?
    ensures first.requests <= reqs
    ensures first.value.Some? ==> forall k :: |first.requests| <= k < |reqs| ==> reqs[k].Post?
    ensures first.value.None? ==> first.requests + second.requests <= reqs
  {
    if HasKey(first.value) {
      forall k | |first.requests| <= k < |reqs| ensures reqs[k].Post? {
        assert reqs[k] == tail[k - |first.requests|];
      }
    } else {
      assert reqs == (first.requests + second.requests) + tail;
    }
  }

  /** The attempts in order: the key in the URL first, with no user id in
      the payload; the key in the payload second, and only when the first
      response is not ok or cannot be read. The result is the body of the
      last response when that one succeeded, and nothing otherwise. */
  lemma SearchAttemptsOrder(world: World, baseSearchUrl: string, apiKey: string, gameName: string,
                            searchModifiers: SearchModifiers, page: int)
    requires apiKey != ""
    ensures var a := SearchAttempts(world, baseSearchUrl, apiKey, gameName, searchModifiers, page);
            1 <= |a.requests| <= 2 && a.requests[0].Post? && a.requests[0].url == baseSearchUrl + apiKey
            && a.requests[0].payload.searchOptions.users.id.None?
            && (|a.requests| == 2 <==> !Succeeded(world.search(a.requests[0].url, a.requests[0].payload)))
            && (|a.requests| == 2 ==> a.requests[1].Post? && a.requests[1].url == baseSearchUrl
                                      && a.requests[1].payload.searchOptions.users.id == Some(apiKey))
            && (var last := a.requests[|a.requests| - 1];
                var resp := world.search(last.url, last.payload);
                a.value == (if Succeeded(resp) then resp.body else None))
  {
  }

  /** Every search POST goes to an address under
      `https://howlongtobeat.com/api/` and carries the name's terms; and a
      POST is sent exactly when the passes found a key. */
  lemma SearchPostTargets(world: World, gameName: string, searchModifiers: SearchModifiers, page: int)
    ensures var reqs := SearchSpec(world, gameName, searchModifiers, page).requests;
            forall k :: 0 <= k < |reqs| && reqs[k].Post? ==>
              BASE_URL + "api/" <= reqs[k].url && Join(reqs[k].payload.searchTerms, " ") == gameName
    ensures var reqs := SearchSpec(world, gameName, searchModifiers, page).requests;
            (exists k :: 0 <= k < |reqs| && reqs[k].Post?) <==>
              !All(gameName, IsSpace) && HasKey(KeyPasses(world).value)
  {
    TrimEmptyIff(gameName);
    FetchSearchInfoApi(world, false);
    FetchSearchInfoApi(world, true);
    var found := KeyPasses(world);
    PassesOnlyGet(world);
    var reqs := SearchSpec(world, gameName, searchModifiers, page).requests;
    if All(gameName, IsSpace) {
      PostsAfter([], [], reqs, gameName);
    } else if HasKey(found.value) {
      var tail := SearchTail(world, found.value.value, gameName, searchModifiers, page);
      SearchTailTargets(world, found.value.value, gameName, searchModifiers, page);
      PostsAfter(found.requests, tail, reqs, gameName);
    } else {
      PostsAfter(found.requests, [], reqs, gameName);
    }
  }

  /** The attempts with a key and a search URL as `fetchSearchInfo` returns
      them send at least one POST, each under `https://howlongtobeat.com/api/`
      and carrying the name's terms. */
  lemma SearchTailTargets(world: World, info: Info, gameName: string, searchModifiers: SearchModifiers, page: int)
    requires Truthy(info.apiKey) && ApiRelative(info)
    ensures var tail := SearchTail(world, info, gameName, searchModifiers, page);
            |tail| >= 1
            && forall k :: 0 <= k < |tail| ==>
                 BASE_URL + "api/" <= tail[k].url && Join(tail[k].payload.searchTerms, " ") == gameName
  {
    SearchBaseUrlUnderApi(info);
    AttemptsTargets(world, SearchBaseUrl(info.searchUrl), info.apiKey.value, gameName, searchModifiers, page);
  }

  lemma AttemptsTargets(world: World, baseSearchUrl: string, apiKey: string, gameName: string,
                        searchModifiers: SearchModifiers, page: int)
    requires BASE_URL + "api/" <= baseSearchUrl
    ensures var a := SearchAttempts(world, baseSearchUrl, apiKey, gameName, searchModifiers, page).requests;
            |a| >= 1
            && forall k :: 0 <= k < |a| ==>
                 BASE_URL + "api/" <= a[k].url && Join(a[k].payload.searchTerms, " ") == gameName
  {
    assert BASE_URL + "api/" <= baseSearchUrl + apiKey;
  }

  /** GETs followed by POSTs with the given targets, on abstract traces. */
  lemma PostsAfter(found: seq<Request>, tail: seq<Request>, reqs: seq<Request>, gameName: string)
    requires reqs == found + tail
    requires forall k :: 0 <= k < |found| ==> found[k].Get?
    requires forall k :: 0 <= k < |tail| ==>
               tail[k].Post? && BASE_URL + "api/" <= tail[k].url && Join(tail[k].payload.searchTerms, " ") == gameName
    ensures forall k :: 0 <= k < |reqs| && reqs[k].Post? ==>
              BASE_URL + "api/" <= reqs[k].url && Join(reqs[k].payload.searchTerms, " ") == gameName
    ensures (exists k :: 0 <= k < |reqs| && reqs[k].Post?) <==> tail != []
  {
    if tail != [] {
      assert reqs[|found|] == tail[0];
    }
    forall k | 0 <= k < |reqs| && reqs[k].Post?
      ensures k >= |found|
      ensures BASE_URL + "api/" <= reqs[k].url && Join(reqs[k].payload.searchTerms, " ") == gameName
    {
      if k >= |found| {
        assert reqs[k] == tail[k - |found|];
      }
    }
  }

  /** The key passes send GETs only. */
  lemma PassesOnlyGet(world: World)
    ensures forall k :: 0 <= k < |KeyPasses(world).requests| ==> KeyPasses(world).requests[k].Get?
  {
    FetchOnlyGet(world, false);
    FetchOnlyGet(world, true);
  }

  lemma FetchOnlyGet(world: World, parseAllScripts: bool)
    ensures forall k :: 0 <= k < |FetchSearchInfoSpec(world, parseAllScripts).requests| ==>
              FetchSearchInfoSpec(world, parseAllScripts).requests[k].Get?
  {
    var home := world.pages(BASE_URL);
    if Succeeded(home) {
      var urls := ScriptUrls(world.scriptSrcs(home.body.value), parseAllScripts, world.resolve);
      if urls.Some? {
        ScanOnlyGet(HitOf(world), urls.value);
      }
    }
  }

  lemma {:induction false} ScanOnlyGet(hit: string -> Option<Info>, urls: seq<string>)
    ensures forall k :: 0 <= k < |ScanScripts(hit, urls).requests| ==> ScanScripts(hit, urls).requests[k].Get?
    decreases |urls|
  {
    if urls != [] && hit(urls[0]).None? {
      ScanOnlyGet(hit, urls[1..]);
    }
  }

  /** A result is what the server answered: some POST of the trace got an
      ok response whose body is that result. */
  lemma SearchResultAnswered(world: World, gameName: string, searchModifiers: SearchModifiers, page: int)
    ensures var s := SearchSpec(world, gameName, searchModifiers, page);
            s.value.Some? ==> exists k :: 0 <= k < |s.requests| && s.requests[k].Post?
                                && world.search(s.requests[k].url, s.requests[k].payload) == Answered(true, s.value)
  {
    var s := SearchSpec(world, gameName, searchModifiers, page);
    if s.value.Some? {
      var found := KeyPasses(world);
      var info := found.value.value;
      var url := SearchBaseUrl(info.searchUrl);
      var a := SearchAttempts(world, url, info.apiKey.value, gameName, searchModifiers, page);
      assert s.requests == found.requests + a.requests;
      var k := |s.requests| - 1;
      assert s.requests[k] == a.requests[|a.requests| - 1];
    }
  }

  // ---------------------------------------------------------- getGameTitle

  /** `${GAME_URL}?${params}` */
  function GameTitleUrl(gameId: int): (r: string)
  {
    GAME_URL + "?" + TitleRequestParams(gameId)
  }

  /** `getGameTitle(gameId)`: one GET of the game page; its title when the
      response is ok and readable, and nothing otherwise. */
  function GameTitleSpec(world: World, gameId: int): (r: Outcome<string>)
  {
    var url := GameTitleUrl(gameId);
    var response := world.pages(url);
    Outcome(if Succeeded(response) then CutGameTitle(response.body, world.titleText) else None, [Get(url)])
  }

  method GetGameTitle(net: Network, gameId: int) returns (r: Option<string>)
    modifies net
    ensures r == GameTitleSpec(net.world, gameId).value
    ensures net.log == old(net.log) + GameTitleSpec(net.world, gameId).requests
  {
    var params := TitleRequestParams(gameId);
    var url := GAME_URL + "?" + params;
    var response := net.Get(url);
    if !Succeeded(response) {
      return None;
    }
    return CutGameTitle(response.body, net.world.titleText);
  }

  /** As written, a game page whose title frames a name of two or more
      characters gives that name without its last character, after one GET
      of the game's page. */
  lemma GameTitleOfFramedPage(world: World, gameId: int, name: string)
    requires var response := world.pages(GameTitleUrl(gameId));
             Succeeded(response) && response.body.value != "" && world.titleText(response.body.value) == Framed(name)
    requires |name| >= 2
    ensures GameTitleSpec(world, gameId) == Outcome(Some(Trim(name[..|name| - 1])), [Get(GameTitleUrl(gameId))])
  {
    CutTitleTextDropsLastChar(name);
  }

  /** Each game has its own page: different ids fetch different URLs. */
  lemma GameTitleUrlInjective(a: int, b: int)
    requires GameTitleUrl(a) == GameTitleUrl(b)
    ensures a == b
  {
    var n := |GAME_URL + "?"|;
    assert GameTitleUrl(a)[n..] == TitleRequestParams(a);
    assert GameTitleUrl(b)[n..] == TitleRequestParams(b);
    TitleRequestParamsInjective(a, b);
  }
}
