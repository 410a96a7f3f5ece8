# HowLongToBeat lookup of a Discord bot, in Dafny

The bot's `/hltb` command searches HowLongToBeat for a game and shows its
completion times. HowLongToBeat has no public API. So the bot scrapes one out
of the website (src/features/hltb.ts):

- **Extraction.** `SearchInformations` reads one of the site's JavaScript
  bundles. It extracts the API key with three regular-expression strategies,
  then extracts the search endpoint whose `.concat` literals spell that key.
- **Discovery.** `fetchSearchInfo` fetches the home page and tries its
  scripts in order. `search` runs that in two passes, then POSTs the search
  payload, first with the key in the URL and then with the key in the payload.
- **Titles.** `cutGameTitle` takes a game's name out of its page title.
- **Display.** The command (src/commands/hltb.ts) rounds the times to hours,
  builds a dropdown of the first ten results and shows the game the user
  picks.

The model follows those files module by module:

- `Text`: the JavaScript string operations the code relies on.
  - `trim` and `\s`, with the exact code points of ECMA-262.
  - `split(" ")`, `join`, `includes`.
  - Truthiness.
  - `Number.prototype.toString` on integers.
- `Regex`: `exec` and `matchAll` over a matcher that is tried at each index.
- `KeyPatterns` / `KeyFacts`: the three key patterns as matchers. Each pattern
  comes with the text it accepts, and lemmas prove that each matcher accepts
  exactly that text.
- `EndpointPatterns` / `EndpointFacts`: the same for the endpoint pattern and
  its `.concat` re-scan.
- `SearchInfo`: the class `SearchInformations`, with its constructor, its
  key extraction (a function) and its endpoint loop (a method with a loop).
- `Payload`: `getSearchRequestData` as a method building the payload value.
- `Title`: `cutGameTitle` and `getTitleRequestParams`.
- `Client`: `fetchSearchInfo`, `search` and `getGameTitle` as methods.
  - A `Network` object sends the requests and records each one in its `log`
    trace.
  - The methods run against a fixed `World` of responses.
  - Each method is proved equal to a function giving both its result and the
    requests it sends.
- `Command`: `formatTime`, the platforms field, the dropdown options, the
  `slice`/`find` logic and the replies of `execute`.

Regular expressions are not interpreted. Each pattern of the source is a
hand-written matcher, with the same character classes, greediness and
capture-group behaviour. In strategy 2, the `*` group keeps only its last
iteration, as in the RepeatMatcher of ECMA-262 (section 22.2.2). So the key
is the first and last literals, not all of them.

The code has no token cache, no retry on a 404 and no conversion of results
to hours.

`search` scrapes a key again on every call and returns the raw response body.

## Model

| member | source | states |
|---|---|---|
| Text.Trim | src/features/hltb.ts:307 | `trim` removes the ECMA-262 white space at both ends: the result has no space at either end and is no longer than the input |
| Text.TrimEmptyIff | src/features/hltb.ts:307 | a string trims to empty exactly when it is all white space |
| Text.TrimPadded | src/features/hltb.ts:258 | trimming a space-free core surrounded by white space gives back the core |
| Text.Split | src/features/hltb.ts:152 | `split(" ")` gives at least one piece and no piece contains the separator |
| Text.JoinSplit | src/features/hltb.ts:152 | joining the pieces of `split` with the separator gives back the string |
| Text.SplitJoin | src/features/hltb.ts:152 | splitting a join of separator-free pieces gives back the pieces |
| Text.IntToDecimal | src/commands/hltb.ts:60 | `toString` of an integer is non-empty and starts with `-` exactly for negatives |
| Text.IntToDecimalInjective | src/commands/hltb.ts:117 | different integers have different decimal renderings |
| Text.DecimalRoundTrip | src/features/hltb.ts:269 | reading back the digits of a natural number gives the number |
| Regex.FirstMatchLeftmost | src/features/hltb.ts:62 | `exec` returns the match at the leftmost index where the pattern matches |
| Regex.FirstMatchNone | src/features/hltb.ts:62 | `exec` returns `null` exactly when the pattern matches at no index |
| Regex.ScanAllSkip | src/features/hltb.ts:102 | `matchAll` passes over the indices where the pattern does not match |
| Regex.ScanAllStep | src/features/hltb.ts:102 | after a non-empty match `matchAll` resumes where that match ended |
| Regex.ScanAllCaps | src/features/hltb.ts:102 | a property of every match of the pattern holds of every capture `matchAll` returns |
| KeyFacts.UserIdComplete | src/features/hltb.ts:61 | `users : { id : "K"` with any spacing is matched and captures exactly `K` |
| KeyFacts.UserIdSound | src/features/hltb.ts:61 | anything the user-id pattern matches has that form, with a non-empty key without `"` |
| KeyFacts.ConcatFetchComplete | src/features/hltb.ts:70-71 | `fetch("/api/w/".concat("a")...concat("z"))` is matched and captures the first literal and the last one only |
| KeyFacts.ConcatFetchSound | src/features/hltb.ts:70-71 | anything strategy 2 matches has that form, and its capture is the first and last literals |
| KeyFacts.JoinFirstAndLast | src/features/hltb.ts:74-77 | the defined captures joined are the first literal followed by the last repeated one, if any |
| KeyFacts.ConcatAssignComplete | src/features/hltb.ts:81 | `"/api/w/"` followed by one or more `.concat("...")` is matched, and its chain text is captured |
| KeyFacts.ConcatAssignSound | src/features/hltb.ts:81 | anything strategy 3 matches has that form, with literals allowed to be empty |
| KeyFacts.ScanChain | src/features/hltb.ts:85-87 | re-scanning a chain of calls gives back its literals, in order |
| KeyFacts.ConcatAssignRescan | src/features/hltb.ts:83-86 | the chain captured by strategy 3 yields at least one literal on re-scan |
| KeyFacts.ChainSound | src/features/hltb.ts:81 | a greedy run of `.concat` calls decomposes into calls with well-formed literals |
| EndpointFacts.QuotedCallComplete | src/features/hltb.ts:108 | `.concat( 'x' )` with any spacing and either quote is matched and captures `x` |
| EndpointFacts.QuotedCallSound | src/features/hltb.ts:108 | anything the call pattern matches has that form |
| EndpointFacts.SpacedRunChain | src/features/hltb.ts:101 | the greedy call group consumes a whole chain of calls and stops after it |
| EndpointFacts.SpacedRunSound | src/features/hltb.ts:101 | what the greedy group consumes is always a chain of well-formed calls |
| EndpointFacts.ScanCalls | src/features/hltb.ts:108-112 | re-scanning the captured call group gives its literals in order |
| EndpointFacts.SearchFetchComplete | src/features/hltb.ts:101 | `fetch( '/api/p' .concat(...)... ,` is matched, capturing `/api/p` and the exact call text |
| EndpointFacts.SearchFetchSound | src/features/hltb.ts:101 | anything the endpoint pattern matches has that form, its endpoint starting with `/api/` |
| EndpointFacts.SearchFetchRescan | src/features/hltb.ts:101-112 | for each endpoint match, the re-scan of its calls gives the literals of the call chain |
| SearchInfo.SearchInformations.constructor | src/features/hltb.ts:50-57 | the key is extracted first, then the endpoint for that key, and one leading `/` is removed |
| SearchInfo.SearchInformations.ExtractSearchUrlScript | src/features/hltb.ts:95-121 | the loop returns the endpoint of the first match whose literals join to the key, or `null` |
| SearchInfo.UserIdStrategy | src/features/hltb.ts:61-65 | the leftmost `users: { id: "K" }` gives `K`, whatever the other strategies would find |
| SearchInfo.ConcatFetchStrategy | src/features/hltb.ts:67-78 | without strategy 1, the leftmost fetch chain gives its first and last literals joined |
| SearchInfo.ConcatAssignStrategy | src/features/hltb.ts:80-89 | without strategies 1 and 2, the leftmost `"/api/w/"` chain gives all its literals joined |
| SearchInfo.NoKeyIff | src/features/hltb.ts:59-93 | the key is `null` exactly when none of the three patterns matches anywhere |
| SearchInfo.FirstAgreeingSpec | src/features/hltb.ts:104-120 | no endpoint exactly when no match agrees with the key; otherwise the first agreeing match's |
| SearchInfo.ScannedEndpoints | src/features/hltb.ts:101-102 | every endpoint match found starts with `/api/` |
| SearchInfo.StoredSearchUrl | src/features/hltb.ts:52-56 | a stored search URL is an `api/...` path: the endpoint with its leading `/` removed |
| SearchInfo.AgreeingEndpointChosen | src/features/hltb.ts:101-120 | when the scan finds matches whose literals do not spell the key and then one whose literals do, that one supplies the endpoint |
| SearchInfo.FirstEndpointChosen | src/features/hltb.ts:101-117 | when the first endpoint match in the script spells the key, it supplies the endpoint |
| Payload.SearchRequestData | src/features/hltb.ts:144-180 | the terms split the name and join back to it; page, size 20, modifier; user id present exactly for a truthy key and equal to it; nothing else differs |
| Payload.GetSearchRequestData | src/features/hltb.ts:144-183 | the method builds the payload in place and returns exactly that value |
| Payload.SearchTermsRoundTrip | src/features/hltb.ts:152 | a name made of space-free words is sent as exactly those words |
| Title.TitleRequestParams | src/features/hltb.ts:268-270 | the query is `id=` followed by the decimal id |
| Title.TitleRequestParamsInjective | src/features/hltb.ts:268-270 | different ids give different queries |
| Title.CutTitleText | src/features/hltb.ts:250-261 | `null` exactly when the text is outside the frame and all white space; outside the frame, the trimmed text |
| Title.CutGameTitle | src/features/hltb.ts:245-266 | a missing or empty page gives `null`; otherwise the as-written cut of its title text |
| Title.CutTitleTextDropsLastChar | src/features/hltb.ts:253-258 | as written, a framed name of two or more characters loses its last character |
| Title.CutTitleTextShortens | src/features/hltb.ts:253-258 | as written, a framed name whose ends are not spaces comes back one character short |
| Title.CelesteLosesItsLastLetter | src/features/hltb.ts:253-258 | as written, the page of "Celeste" yields "Celest" |
| Title.OneLetterKeepsFrame | src/features/hltb.ts:254-261 | as written, a one-letter name fails the frame test and the whole title comes back |
| Title.CutTitleTextIntended | src/features/hltb.ts:250-261 | with the 16-character suffix: `null` exactly for an all-space text outside the frame |
| Title.CutTitleTextIntendedRoundTrip | src/features/hltb.ts:253-258 | with the 16-character suffix, a framed name comes back whole |
| Client.ScriptUrlsSpec | src/features/hltb.ts:198-209 | the URLs are the resolutions of the kept sources, in document order; the walk fails exactly when some kept source fails to resolve |
| Client.KeptSources | src/features/hltb.ts:202-204 | a source is kept exactly when it is non-empty and either every script is wanted or it contains `_app-` |
| Client.CollectScriptUrls | src/features/hltb.ts:198-209 | the `each` loop pushes exactly the URLs of that walk |
| Client.ScanScriptsNone | src/features/hltb.ts:211-238 | no information exactly when no script gives a key, after fetching every script |
| Client.ScanScriptsFirstHit | src/features/hltb.ts:211-235 | otherwise the information of the first script with a key, after fetching exactly the scripts up to it |
| Client.FetchScript | src/features/hltb.ts:212-223 | one script: its information when the fetch is ok, readable and gives a truthy key; one GET |
| Client.FetchScripts | src/features/hltb.ts:211-238 | the `for` loop returns at the first script with a key and sends one GET per script tried |
| Client.FetchSearchInfo | src/features/hltb.ts:185-243 | the home page, then the scripts; a failed home page or URL resolution gives `null` after that one GET |
| Client.FetchSearchInfoKey | src/features/hltb.ts:198-222 | returned information always has a truthy key and an `api/` search URL if any, and is the information of one of the collected script URLs |
| Client.ObtainSearchInfo | src/features/hltb.ts:310-314 | the `_app-` pass, then the all-scripts pass only when the first finds no key |
| Client.SearchBaseUrlUnderApi | src/features/hltb.ts:321-328 | the search URL is the base URL followed by the stored URL or `api/s/`, an address under `https://howlongtobeat.com/api/` |
| Client.TryBothAttempts | src/features/hltb.ts:332-386 | the two POSTs in order: the second only when the first does not succeed |
| Client.Search | src/features/hltb.ts:302-387 | the method sends exactly the requests of `SearchSpec` and returns its result |
| Client.SearchBlankName | src/features/hltb.ts:307-309 | a blank name sends no request and gives `null`; any other starts by fetching the home page |
| Client.SearchPasses | src/features/hltb.ts:310-314 | the trace starts with the `_app-` pass; the second pass follows only if it found nothing |
| Client.SearchAttemptsOrder | src/features/hltb.ts:332-386 | key in the URL with no user id first, key in the payload second; the result is the body of the last successful response or `null` |
| Client.SearchPostTargets | src/features/hltb.ts:316-386 | every POST goes under `https://howlongtobeat.com/api/` with the name's terms; POSTs are sent exactly when a key was found |
| Client.SearchResultAnswered | src/features/hltb.ts:348-351 | a result is the body of an ok response to one of the POSTs sent |
| Client.PassesOnlyGet | src/features/hltb.ts:185-243 | key discovery sends only GET requests |
| Client.GetGameTitle | src/features/hltb.ts:394-412 | one GET of the game page; its title cut as written when the response is ok and readable, `null` otherwise |
| Client.GameTitleOfFramedPage | src/features/hltb.ts:394-412 | a game page framing a name of two or more characters gives the name without its last character, after one GET |
| Client.GameTitleUrlInjective | src/features/hltb.ts:397 | different ids fetch different game pages |
| Command.RoundHours | src/commands/hltb.ts:19 | `Math.round(t / 3600)`: the hours `h` with `3600h - 1800 <= t < 3600h + 1800` |
| Command.RoundHoursUnique | src/commands/hltb.ts:19 | that number of hours is unique |
| Command.FormatTime | src/commands/hltb.ts:18-19 | `null` shows `N/A`, any time shows the rounded hours followed by ` hours` |
| Command.FormatTimeEqual | src/commands/hltb.ts:18-19 | two times show the same exactly when both are `null` or they round to the same hours |
| Command.PlatformsField | src/commands/hltb.ts:42 | the platform when non-empty, `N/A` otherwise |
| Command.CreateGameEmbed | src/commands/hltb.ts:17-47 | the embed shows the name, the three formatted times and the platforms field |
| Command.OptionOf | src/commands/hltb.ts:57-60 | label is the name, value the decimal id, description the alias, else the platform, else `No additional info` |
| Command.GameSelector | src/commands/hltb.ts:56-61 | one option per game, in the same order |
| Command.SelectorValues | src/commands/hltb.ts:56-61 | two options have the same value exactly when their games have the same id |
| Command.TopResults | src/commands/hltb.ts:15 | the first `min(10, n)` results, in order |
| Command.FindSelectedSpec | src/commands/hltb.ts:116-118 | `find` gives nothing exactly when no shown id renders to the value; otherwise the first that does |
| Command.SelectionPicksGame | src/commands/hltb.ts:116-118 | choosing a game's option finds a game with its id; with distinct ids, that very game |
| Command.FirstReply | src/commands/hltb.ts:85-106 | `No Results Found` exactly for a missing result, missing data or empty data; otherwise a selector of 1 to 10 options over the top results |
| Command.SelectionUpdate | src/commands/hltb.ts:115-125 | no update without a selection or when no shown game matches; otherwise the embed of the found game |
| Command.CommandShowsSelectedGame | src/commands/hltb.ts:84-124 | a selector is only shown for a non-blank name, and any chosen option shows a shown game with its id |

## Left out

- HTTP itself. Requests and their outcomes are the fixed `World`. There is no concurrency and no timing.
- Headers. `getSearchRequestHeaders` and `getTitleRequestHeaders` only return constant headers.
- HTML parsing with cheerio.
  - The `src` attributes of `script[src]` are a function of the page. Absent attributes are left out.
  - The first `<title>`'s text is a function of the page.
- `new URL(src, BASE_URL)` is a function of the source. It may fail, which aborts `fetchSearchInfo` as the exception does.
- `JSON.stringify` of the payload and `response.json()`. The payload is kept as a structure. A readable body is a `SearchResults` value whose fields other than `data` are left out.
- Logging (`console.*`), and the Discord API:
  - deferring, editing and updating replies;
  - the 15-minute wait for a selection, modelled as an optional selected value;
  - the catch-all error reply.
- The check `if (!payload.searchOptions.users)` in `getSearchRequestData` can never fire on the literal just built, so it is not modelled.
- Command.RoundHours: completion times are whole seconds. Fractional seconds and floating-point division are not modelled.
- Command.CommandShowsSelectedGame: the command always searches with the default modifier and page 1. Other calls to `search` are covered by the `Client` lemmas only.
- Payload.SearchRequestData: `page` is a mathematical integer, not a double.
- The `World` answers a repeated request identically. The second pass of `search` fetches the home page again, so in the source it also acts as a retry of a failed home-page fetch; the model has no run where that fetch fails in the first pass and succeeds in the second.
- Title.CutTitleText: string lengths and offsets are counted in Unicode code points, not in the UTF-16 code units of JavaScript's `length`, `substring` and `startsWith`. A title containing characters outside the Basic Multilingual Plane is measured and cut differently (the source can return half a surrogate pair).
- Text.IntToDecimal: game ids are unbounded integers rendered in plain decimal. JavaScript's `toString` switches to exponent notation for magnitudes of 10^21 and above.
- SearchInfo.SearchInformations.ExtractApiFromScript has no contract of its own. Its behaviour is stated by `UserIdStrategy`, `ConcatFetchStrategy`, `ConcatAssignStrategy` and `NoKeyIff`.

## Findings

| source | as written | input that shows it | evidently intended | confidence | as-written member | corrected member |
|---|---|---|---|---|---|---|
| src/features/hltb.ts:254-258 | the frame test and the cut count the suffix ` \| HowLongToBeat` as 17 characters: `length > 12 + 17` and `substring(12, length - 17)`. The suffix has 16 characters | the title `How long is Celeste \| HowLongToBeat` yields `Celest`. A one-letter name fails the frame test and comes back with its frame | the name between the 12-character prefix and the 16-character suffix: `length > 12 + 16` and `substring(12, length - 16)` | not executed | Title.CelesteLosesItsLastLetter | Title.CutTitleTextIntendedRoundTrip |

`Title.CutGameTitle` and `Client.GetGameTitle` follow the code as written,
through `Title.CutTitleText`: `Client.GameTitleOfFramedPage` states that a
game page returns its name without the last letter, and
`Title.OneLetterKeepsFrame` that a one-letter name comes back with its frame.
`Title.CutTitleTextIntended` is the corrected cut, and
`Title.CutTitleTextIntendedRoundTrip` proves that it returns every framed
name whole.
