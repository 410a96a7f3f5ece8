/** The display rules of the `/hltb` command (src/commands/hltb.ts): how a
    game's times are shown, the dropdown built from the first results, the
    game a selection picks, and which reply `execute` gives. Discord's
    builders are kept as the values they carry; sending and awaiting
    messages is not part of this model. */
module Command {
  import opened Wrappers
  import opened Text
  import opened Client

  const MAX_RESULTS: nat := 10
  const SECONDS_PER_HOUR: int := 3600

  // ------------------------------------------------------- createGameEmbed

  /** `Math.round(time / 3600)` for a whole number of seconds: the nearest
      whole number of hours, halves rounded up. */
  function RoundHours(time: int): (h: int)
    ensures SECONDS_PER_HOUR * h - SECONDS_PER_HOUR / 2 <= time < SECONDS_PER_HOUR * h + SECONDS_PER_HOUR / 2
  {
    (time + SECONDS_PER_HOUR / 2) / SECONDS_PER_HOUR
  }

  /** There is only one such number of hours. */
  lemma RoundHoursUnique(time: int, h: int)
    requires SECONDS_PER_HOUR * h - SECONDS_PER_HOUR / 2 <= time < SECONDS_PER_HOUR * h + SECONDS_PER_HOUR / 2
    ensures RoundHours(time) == h
  {
    var g := RoundHours(time);
    assert SECONDS_PER_HOUR * (g - h) < SECONDS_PER_HOUR;
    assert SECONDS_PER_HOUR * (h - g) < SECONDS_PER_HOUR;
  }

  /** `formatTime`: `N/A` for `null`, otherwise the hours and ` hours`. */
  function FormatTime(time: Option<int>): (r: string)
    ensures time.None? <==> r == "N/A"
    ensures time.Some? ==> EndsWith(r, " hours") && r[..|r| - 6] == IntToDecimal(RoundHours(time.value))
  {
    if time.None? then "N/A"
    else
      var digits := IntToDecimal(RoundHours(time.value));
      var r := digits + " hours";
      assert r[|r| - 6..] == " hours" && r[..|r| - 6] == digits;
      r
  }

  /** Two shown times are equal exactly when both are `N/A` or they round to
      the same number of hours. */
  lemma FormatTimeEqual(a: Option<int>, b: Option<int>)
    ensures FormatTime(a) == FormatTime(b) <==>
            (a.None? && b.None?) || (a.Some? && b.Some? && RoundHours(a.value) == RoundHours(b.value))
  {
    if a.Some? && b.Some? && FormatTime(a) == FormatTime(b) {
      var r := FormatTime(a);
      IntToDecimalInjective(RoundHours(a.value), RoundHours(b.value));
    }
  }

  /** The platforms field: the platform, or `N/A` when it is empty. */
  function PlatformsField(game: GameResult): (r: string)
    ensures r != ""
    ensures game.profilePlatform != "" ==> r == game.profilePlatform
    ensures game.profilePlatform == "" ==> r == "N/A"
  {
    if game.profilePlatform != "" then game.profilePlatform else "N/A"
  }

  /** What the embed of a game shows. */
  datatype GameEmbed = GameEmbed(title: string, mainStory: string, mainExtras: string, completionist: string,
                                 platforms: string)

  function CreateGameEmbed(game: GameResult): (e: GameEmbed)
    ensures e.title == game.gameName && e.platforms == PlatformsField(game)
    ensures e.mainStory == FormatTime(game.compMain) && e.mainExtras == FormatTime(game.compPlus)
    ensures e.completionist == FormatTime(game.comp100)
  {
    GameEmbed(game.gameName, FormatTime(game.compMain), FormatTime(game.compPlus), FormatTime(game.comp100),
              PlatformsField(game))
  }

  // ---------------------------------------------------- createGameSelector

  /** One dropdown option. */
  datatype SelectOption = SelectOption(caption: string, description: string, value: string)

  /** The option of a game: its name, its alias or else its platform or
      else `No additional info`, and its id in decimal. */
  function OptionOf(game: GameResult): (o: SelectOption)
    ensures o.caption == game.gameName && o.value == IntToDecimal(game.gameId) && o.description != ""
    ensures game.gameAlias != "" ==> o.description == game.gameAlias
    ensures game.gameAlias == "" && game.profilePlatform != "" ==> o.description == game.profilePlatform
    ensures game.gameAlias == "" && game.profilePlatform == "" ==> o.description == "No additional info"
  {
    var description := if game.gameAlias != "" then game.gameAlias
                       else if game.profilePlatform != "" then game.profilePlatform
                       else "No additional info";
    SelectOption(game.gameName, description, IntToDecimal(game.gameId))
  }

  /** `games.map(...)`: one option per game, in the same order. */
  function GameSelector(games: seq<GameResult>): (options: seq<SelectOption>)
    ensures |options| == |games|
    ensures forall k :: 0 <= k < |games| ==> options[k] == OptionOf(games[k])
  {
    seq(|games|, k requires 0 <= k < |games| => OptionOf(games[k]))
  }

  /** Options have equal values exactly when their games have equal ids. */
  lemma SelectorValues(games: seq<GameResult>, j: nat, k: nat)
    requires j < |games| && k < |games|
    ensures GameSelector(games)[j].value == GameSelector(games)[k].value <==> games[j].gameId == games[k].gameId
  {
    if GameSelector(games)[j].value == GameSelector(games)[k].value {
      IntToDecimalInjective(games[j].gameId, games[k].gameId);
    }
  }

  // --------------------------------------------------------------- execute

  /** `data.slice(0, MAX_RESULTS)`. */
  function TopResults(data: seq<GameResult>): (r: seq<GameResult>)
    ensures |r| == if |data| < MAX_RESULTS then |data| else MAX_RESULTS
    ensures r <= data
  {
    if |data| < MAX_RESULTS then data else data[..MAX_RESULTS]
  }

  /** `topResults.find(game => game.game_id.toString() === value)`. */
  function FindSelected(shown: seq<GameResult>, value: string): (r: Option<GameResult>)
    decreases |shown|
  {
    if shown == [] then None
    else if IntToDecimal(shown[0].gameId) == value then Some(shown[0])
    else FindSelected(shown[1..], value)
  }

  /** The search finds nothing exactly when no shown game has that value;
      otherwise it finds the first one that has. */
  lemma {:induction false} FindSelectedSpec(shown: seq<GameResult>, value: string)
    ensures FindSelected(shown, value).None? <==> forall i :: 0 <= i < |shown| ==> IntToDecimal(shown[i].gameId) != value
    ensures FindSelected(shown, value).Some? ==>
              exists i :: 0 <= i < |shown| && FindSelected(shown, value) == Some(shown[i])
                          && IntToDecimal(shown[i].gameId) == value
                          && forall j :: 0 <= j < i ==> IntToDecimal(shown[j].gameId) != value
    decreases |shown|
  {
    if shown != [] && IntToDecimal(shown[0].gameId) != value {
      var tail := shown[1..];
      FindSelectedSpec(tail, value);
      forall i | 1 <= i < |shown| ensures shown[i] == tail[i - 1] { }
      if FindSelected(tail, value).Some? {
        var i :| 0 <= i < |tail| && FindSelected(tail, value) == Some(tail[i])
                 && IntToDecimal(tail[i].gameId) == value
                 && forall j :: 0 <= j < i ==> IntToDecimal(tail[j].gameId) != value;
        assert FindSelected(shown, value) == Some(shown[i + 1]);
      }
    }
  }

  /** Choosing the option of a shown game selects the first shown game with
      the same id; so with distinct ids, exactly that game. */
  lemma SelectionPicksGame(shown: seq<GameResult>, k: nat)
    requires k < |shown|
    ensures var r := FindSelected(shown, GameSelector(shown)[k].value);
            r.Some? && r.value.gameId == shown[k].gameId
    ensures (forall i, j :: 0 <= i < j < |shown| ==> shown[i].gameId != shown[j].gameId) ==>
              FindSelected(shown, GameSelector(shown)[k].value) == Some(shown[k])
  {
    var value := GameSelector(shown)[k].value;
    assert value == IntToDecimal(shown[k].gameId);
    var i := FoundAt(shown, value, k);
    IntToDecimalInjective(shown[i].gameId, shown[k].gameId);
    if i < k {
      // two shown games with one id: the ids are not distinct
      assert exists i', j' :: 0 <= i' < j' < |shown| && shown[i'].gameId == shown[j'].gameId by {
        assert shown[i].gameId == shown[k].gameId;
      }
    }
  }

  /** When shown game `k` has the value, the search stops at some shown game
      `i <= k` that has it too. */
  lemma FoundAt(shown: seq<GameResult>, value: string, k: nat) returns (i: nat)
    requires k < |shown| && IntToDecimal(shown[k].gameId) == value
    ensures i <= k && FindSelected(shown, value) == Some(shown[i]) && IntToDecimal(shown[i].gameId) == value
  {
    FindSelectedSpec(shown, value);
    i :| 0 <= i < |shown| && FindSelected(shown, value) == Some(shown[i])
         && IntToDecimal(shown[i].gameId) == value
         && forall j :: 0 <= j < i ==> IntToDecimal(shown[j].gameId) != value;
  }

  /** The first reply of `execute`: `No Results Found` for a missing or empty
      result list, otherwise the selector over the first results. */
  datatype Reply = NoResults(description: string) | Choose(shown: seq<GameResult>, options: seq<SelectOption>)

  function FirstReply(gameName: string, results: Option<SearchResults>): (r: Reply)
    ensures r.NoResults? <==> results.None? || results.value.data.None? || results.value.data.value == []
    ensures r.NoResults? ==> r.description == "No results found for \"" + gameName + "\""
    ensures r.Choose? ==> r.shown == TopResults(results.value.data.value) && r.options == GameSelector(r.shown)
                          && 1 <= |r.options| <= MAX_RESULTS
  {
    if results.None? || results.value.data.None? || |results.value.data.value| == 0
    then NoResults("No results found for \"" + gameName + "\"")
    else var shown := TopResults(results.value.data.value); Choose(shown, GameSelector(shown))
  }

  /** The update after a selection: the embed of the selected game, or none
      when the wait ended without a selection or no shown game matches. */
  function SelectionUpdate(shown: seq<GameResult>, selection: Option<string>): (r: Option<GameEmbed>)
    ensures selection.None? ==> r.None?
    ensures selection.Some? ==>
              (r.None? <==> forall i :: 0 <= i < |shown| ==> IntToDecimal(shown[i].gameId) != selection.value)
  {
    if selection.None? then None else
    FindSelectedSpec(shown, selection.value);
    var game := FindSelected(shown, selection.value);
    if game.None? then None else Some(CreateGameEmbed(game.value))
  }

  /** The whole command for one name: a selector is shown only for a name
      that is not blank, and whichever option is then chosen, the update
      shows the times of a shown game with that option's id. */
  lemma CommandShowsSelectedGame(world: World, gameName: string, selected: nat)
    requires var r := FirstReply(gameName, SearchSpec(world, gameName, Payload.NoModifier, 1).value);
             r.Choose? && selected < |r.options|
    ensures !All(gameName, IsSpace)
    ensures var r := FirstReply(gameName, SearchSpec(world, gameName, Payload.NoModifier, 1).value);
            var e := SelectionUpdate(r.shown, Some(r.options[selected].value));
            e.Some? && exists i :: 0 <= i < |r.shown| && r.shown[i].gameId == r.shown[selected].gameId
                                   && e.value == CreateGameEmbed(r.shown[i])
  {
    SearchBlankName(world, gameName, Payload.NoModifier, 1);
    var r := FirstReply(gameName, SearchSpec(world, gameName, Payload.NoModifier, 1).value);
    SelectionPicksGame(r.shown, selected);
    var game := FindSelected(r.shown, r.options[selected].value).value;
    FindSelectedSpec(r.shown, r.options[selected].value);
    var i :| 0 <= i < |r.shown| && Some(game) == Some(r.shown[i]);
  }
}
