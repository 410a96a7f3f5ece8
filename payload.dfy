/** The search request body `getSearchRequestData` (src/features/hltb.ts)
    builds, as a value: the object literal with its fixed defaults, then the
    user id set in place when there is a key. `JSON.stringify` is not part
    of this model; the payload is kept as the structure it serialises. */
module Payload {
  import opened Wrappers
  import opened Text

  /** `SearchModifiers` and the string each member stands for. */
  datatype SearchModifiers = NoModifier | IsolateDlc | IsolateMods | IsolateHacks | HideDlc

  function ModifierText(m: SearchModifiers): (r: string)
  {
    match m
    case NoModifier => ""
    case IsolateDlc => "only_dlc"
    case IsolateMods => "only_mods"
    case IsolateHacks => "only_hacks"
    case HideDlc => "hide_dlc"
  }

  datatype RangeTime = RangeTime(min: int, max: int)
  datatype Gameplay = Gameplay(perspective: string, flow: string, genre: string, difficulty: string)
  datatype RangeYear = RangeYear(max: string, min: string)
  datatype GamesOptions = GamesOptions(userId: int, platform: string, sortCategory: string, rangeCategory: string,
                                       rangeTime: RangeTime, gameplay: Gameplay, rangeYear: RangeYear, modifier: string)
  /** `id` is the optional property `id?: string`. */
  datatype UsersOptions = UsersOptions(sortCategory: string, id: Option<string>)
  datatype ListsOptions = ListsOptions(sortCategory: string)
  datatype SearchOptions = SearchOptions(games: GamesOptions, users: UsersOptions, lists: ListsOptions,
                                         filter: string, sort: int, randomizer: int)
  datatype SearchPayload = SearchPayload(searchType: string, searchTerms: seq<string>, searchPage: int, size: int,
                                         searchOptions: SearchOptions, useCache: bool)

  /** The object literal, before the key is considered. */
  function BasePayload(gameName: string, searchModifiers: SearchModifiers, page: int): (p: SearchPayload)
  {
    SearchPayload(
      "games", Split(gameName, ' '), page, 20,
      SearchOptions(
        GamesOptions(0, "", "popular", "main", RangeTime(0, 0), Gameplay("", "", "", ""), RangeYear("", ""),
                     ModifierText(searchModifiers)),
        UsersOptions("postcount", None),
        ListsOptions("follows"),
        "", 0, 0),
      true)
  }

  /** The payload with its user id removed: what the two request variants share. */
  function WithoutUserId(p: SearchPayload): SearchPayload {
    p.(searchOptions := p.searchOptions.(users := p.searchOptions.users.(id := None)))
  }

  /** The payload `getSearchRequestData` returns: the literal, with the
      user id set to the key when the key is truthy. The search terms are
      the single-space pieces of the name, which join back to it; the user
      id is present exactly when the key is truthy; and the two variants
      differ in nothing but the id. */
  function SearchRequestData(gameName: string, searchModifiers: SearchModifiers, page: int, apiKey: Option<string>)
    : (p: SearchPayload)
    ensures Join(p.searchTerms, " ") == gameName
    ensures forall k :: 0 <= k < |p.searchTerms| ==> ' ' !in p.searchTerms[k]
    ensures p.searchPage == page && p.size == 20 && p.searchOptions.games.modifier == ModifierText(searchModifiers)
    ensures p.searchOptions.users.id.Some? <==> Truthy(apiKey)
    ensures p.searchOptions.users.id.Some? ==> p.searchOptions.users.id == apiKey
    ensures WithoutUserId(p) == BasePayload(gameName, searchModifiers, page)
  {
    JoinSplit(gameName, ' ');
    var base := BasePayload(gameName, searchModifiers, page);
    if Truthy(apiKey) then base.(searchOptions := base.searchOptions.(users := base.searchOptions.users.(id := apiKey)))
    else base
  }

  /** The literal, then `payload.searchOptions.users.id = apiKey` in place
      when the key is truthy. */
  method GetSearchRequestData(gameName: string, searchModifiers: SearchModifiers, page: int, apiKey: Option<string>)
    returns (payload: SearchPayload)
    ensures payload == SearchRequestData(gameName, searchModifiers, page, apiKey)
  {
    payload := BasePayload(gameName, searchModifiers, page);
    if Truthy(apiKey) {
      payload := payload.(searchOptions := payload.searchOptions.(users := payload.searchOptions.users.(id := apiKey)));
    }
  }

  /** Conversely, a name made of space-free pieces is split into exactly
      those pieces. */
  lemma SearchTermsRoundTrip(terms: seq<string>, searchModifiers: SearchModifiers, page: int)
    requires |terms| >= 1 && forall k :: 0 <= k < |terms| ==> ' ' !in terms[k]
    ensures BasePayload(Join(terms, " "), searchModifiers, page).searchTerms == terms
  {
    SplitJoin(terms, ' ');
  }
}
