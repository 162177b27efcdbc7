/**
 The record-building stage (fetch.py): turning the parsed per-game table into
 one entry per watched game, either a `Game` or `None`.
 */
module Fetch {
  import opened Values
  import Parse

  /** fetch.py's `Game` record. Its fields hold whatever the parsed table held,
      without any date or currency conversion. */
  datatype Game = Game(next_draw_date: Value, jackpot: Value)

  /** `Fetcher.WACTHED_GAMES`. */
  const WatchedGames: set<string> := {"lotto", "euromillions"}

  /** The two keys `fetch` reads from a game's fields. */
  const DateKey := "next-draw-date"
  const JackpotKey := "next-draw-jackpot"

  /** A watched game is built when it is in the table and both required
      fields are present and truthy. */
  predicate Buildable(gamesData: GameTable, game: string) {
    game in gamesData && TruthyAt(gamesData[game], DateKey) && TruthyAt(gamesData[game], JackpotKey)
  }

  /** `games` is what `fetch` returns for `gamesData`: exactly the watched
      games as keys; a `Game` exactly for the buildable ones, holding the two
      fields as they were; `None` for the rest. */
  ghost predicate IsBuild(gamesData: GameTable, games: map<string, Option<Game>>) {
    && games.Keys == WatchedGames
    && (forall game :: game in games ==> (games[game].Some? <==> Buildable(gamesData, game)))
    && (forall game :: game in games && games[game].Some? ==>
          && games[game].value.next_draw_date == gamesData[game][DateKey]
          && games[game].value.jackpot == gamesData[game][JackpotKey])
  }

  /** The loop of `Fetcher.fetch` over the watched games, given the parsed
      table. The watched set is visited in an arbitrary order. */
  method BuildGames(gamesData: GameTable) returns (games: map<string, Option<Game>>)
    ensures IsBuild(gamesData, games)
  {
    games := map[];
    var pending := WatchedGames;
    while pending != {}
      invariant pending <= WatchedGames
      invariant games.Keys == WatchedGames - pending
      invariant forall game :: game in games ==> (games[game].Some? <==> Buildable(gamesData, game))
      invariant forall game :: game in games && games[game].Some? ==>
        && games[game].value.next_draw_date == gamesData[game][DateKey]
        && games[game].value.jackpot == gamesData[game][JackpotKey]
      decreases pending
    {
      var game :| game in pending;
      if game in gamesData {
        var gameInfo := gamesData[game];
        var nextDrawDate := if DateKey in gameInfo then Some(gameInfo[DateKey]) else None;
        var jackpot := if JackpotKey in gameInfo then Some(gameInfo[JackpotKey]) else None;
        if nextDrawDate.Some? && Truthy(nextDrawDate.value) && jackpot.Some? && Truthy(jackpot.value) {
          games := games[game := Some(Game(nextDrawDate.value, jackpot.value))];
        } else {
          games := games[game := None];
        }
      } else {
        games := games[game := None];
      }
      pending := pending - {game};
    }
  }

  /** The result depends on the parsed table only through the watched games'
      entries: tables that agree there give the same result, and in
      particular the order in which the watched set is visited does not
      matter. */
  lemma BuildReadsOnlyWatched(d1: GameTable, d2: GameTable,
                              g1: map<string, Option<Game>>, g2: map<string, Option<Game>>)
    requires forall game :: game in WatchedGames ==>
      (game in d1 <==> game in d2) && (game in d1 ==> d1[game] == d2[game])
    requires IsBuild(d1, g1) && IsBuild(d2, g2)
    ensures g1 == g2
  {
    forall game | game in g1
      ensures g1[game] == g2[game]
    {
      if g1[game].Some? {
        assert Buildable(d2, game);
      }
    }
  }

  /** Every parsed game, whether from the meta tags or the page body, lacks
      the key `fetch` reads for the draw date: the meta stage writes
      `next_draw_date`, the content stage never writes a date at all. */
  lemma ParsedGamesLackDateKey(meta: GameTable, content: GameTable, parsed: GameTable)
    requires forall name :: name in meta ==> meta[name].Keys <= Parse.MetaFieldNames
    requires Parse.ContentShaped(content)
    requires Parse.IsMerge(meta, content, parsed)
    ensures forall name :: name in parsed ==> DateKey !in parsed[name]
  {
    forall name | name in parsed
      ensures DateKey !in parsed[name]
    {
      assert DateKey !in Parse.MetaFieldNames && DateKey !in Parse.ContentFieldNames;
      if name in meta && name in content {
        assert parsed[name].Keys == meta[name].Keys + content[name].Keys;
      }
    }
  }

  /** `Fetcher.fetch` as a whole: parse the page, then build the watched
      games. Because the parser and the builder disagree on the field names,
      no watched game is ever built. */
  method FetchPage(doc: Parse.Document, content: GameTable) returns (games: map<string, Option<Game>>)
    requires Parse.RollCountsParse(doc) && Parse.ContentShaped(content)
    ensures games.Keys == WatchedGames
    ensures forall game :: game in games ==> games[game] == None
  {
    var gamesData := Parse.ParseLotteryHtml(doc, content);
    ParsedGamesLackDateKey(Parse.MetaInfo(doc), content, gamesData);
    games := BuildGames(gamesData);
  }

  /** The display name `game_mappings` gives a watched game. */
  function DisplayName(game: string): (name: string)
    requires game in WatchedGames
    ensures (game, name) in Parse.GameMappings
  {
    if game == "lotto" then Parse.GameMappings[0].1 else Parse.GameMappings[1].1
  }

  /** A parsed game's date and jackpot under the names `fetch` reads. */
  function Renamed(info: Fields): Fields {
    var withDate := if "next_draw_date" in info then map[DateKey := info["next_draw_date"]] else map[];
    if "jackpot" in info then withDate[JackpotKey := info["jackpot"]] else withDate
  }

  /** Renaming keeps the date and the jackpot, and their truthiness. */
  lemma RenamedKeepsDateAndJackpot(info: Fields)
    ensures TruthyAt(Renamed(info), DateKey) <==> TruthyAt(info, "next_draw_date")
    ensures TruthyAt(Renamed(info), JackpotKey) <==> TruthyAt(info, "jackpot")
    ensures DateKey in Renamed(info) ==> Renamed(info)[DateKey] == info["next_draw_date"]
    ensures JackpotKey in Renamed(info) ==> Renamed(info)[JackpotKey] == info["jackpot"]
  {
  }

  /** The table `fetch` evidently means to read: each watched game's parsed
      entry, found under its display name, with its fields renamed. */
  function Rekeyed(parsed: GameTable): GameTable {
    map game | game in WatchedGames && DisplayName(game) in parsed :: Renamed(parsed[DisplayName(game)])
  }

  /** Whether the parser's entry for a watched game has a truthy date and
      jackpot. */
  predicate HasDateAndJackpot(parsed: GameTable, game: string)
    requires game in WatchedGames
  {
    DisplayName(game) in parsed
    && TruthyAt(parsed[DisplayName(game)], "next_draw_date")
    && TruthyAt(parsed[DisplayName(game)], "jackpot")
  }

  /** The entry a watched game should get from the parsed table: the
      `Game` its parsed date and jackpot describe, or `None`. */
  function IntendedEntry(parsed: GameTable, game: string): Option<Game>
    requires game in WatchedGames
  {
    if HasDateAndJackpot(parsed, game) then
      var info := parsed[DisplayName(game)];
      Some(Game(info["next_draw_date"], info["jackpot"]))
    else None
  }

  /** Built from the rekeyed table, every watched game gets its intended
      entry: a `Game` exactly when the parser's entry under its display name
      has a truthy date and jackpot, holding those two values. */
  lemma RekeyedBuild(parsed: GameTable, games: map<string, Option<Game>>)
    requires IsBuild(Rekeyed(parsed), games)
    ensures games.Keys == WatchedGames
    ensures forall game :: game in WatchedGames ==> games[game] == IntendedEntry(parsed, game)
  {
    forall game | game in WatchedGames
      ensures games[game] == IntendedEntry(parsed, game)
    {
      if DisplayName(game) in parsed {
        var info := parsed[DisplayName(game)];
        assert Rekeyed(parsed)[game] == Renamed(info);
        RenamedKeepsDateAndJackpot(info);
      } else {
        assert game !in Rekeyed(parsed);
      }
    }
  }

  /** `Fetcher.fetch` with the builder reading what the parser writes: every
      watched game gets the entry its parsed date and jackpot describe. */
  method FetchPageRekeyed(doc: Parse.Document, content: GameTable)
    returns (parsed: GameTable, games: map<string, Option<Game>>)
    requires Parse.RollCountsParse(doc)
    ensures Parse.IsMerge(Parse.MetaInfo(doc), content, parsed)
    ensures games.Keys == WatchedGames
    ensures forall game :: game in WatchedGames ==> games[game] == IntendedEntry(parsed, game)
  {
    parsed := Parse.ParseLotteryHtml(doc, content);
    games := BuildGames(Rekeyed(parsed));
    RekeyedBuild(parsed, games);
  }

  /** When the page body says nothing about a watched game, its meta date
      and jackpot tags alone give it a `Game` holding their text, which is
      what tests/test_fetch.py expects of EuroMillions. */
  lemma MetaTagsBuildWatchedGame(doc: Parse.Document, content: GameTable, parsed: GameTable,
                                 game: string, date: string, jackpot: string)
    requires Parse.RollCountsParse(doc)
    requires Parse.IsMerge(Parse.MetaInfo(doc), content, parsed)
    requires game in WatchedGames && DisplayName(game) !in content
    requires Parse.MetaName(game, Parse.DateSuffix) in doc
    requires doc[Parse.MetaName(game, Parse.DateSuffix)] == Some(date) && date != ""
    requires Parse.MetaName(game, Parse.JackpotSuffix) in doc
    requires doc[Parse.MetaName(game, Parse.JackpotSuffix)] == Some(jackpot) && jackpot != ""
    ensures IntendedEntry(parsed, game) == Some(Game(Str(date), Str(jackpot)))
  {
    var i := if game == "lotto" then 0 else 1;
    assert Parse.GameMappings[i] == (game, DisplayName(game));
    Parse.GameInfoFields(doc, game);
    var info := Parse.GameInfo(doc, game);
    assert "next_draw_date" in info;
    assert DisplayName(game) in Parse.MetaInfo(doc);
    assert parsed[DisplayName(game)] == info;
  }
}
