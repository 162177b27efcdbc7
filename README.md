# Lottery page scraper: parse, build, store

A Dafny model of the core of a small scraper for the National Lottery games
page. Three stages are modelled, each after its Python module:

- **Parse** (`parse.dfy`, after parse.py). `extract_meta_info` probes five
  meta tags, `{game_key}-next-draw-date`, `-price`, `-next-draw-jackpot`,
  `-next-draw-day` and `-roll-count`, for each of six games. It records the
  content text under the game's display name. The price gets a `£` prefix.
  The roll count becomes an integer unless it is empty or `"0"`.
  `parse_lottery_html` merges those games with the ones read from the page
  body, and the body's values win on shared fields. `format_output`
  normalises every entry to a fixed field set with `'N/A'` defaults. The
  jackpot cleanup removes `*` and `Δ` from text.
- **Fetch** (`fetch.dfy`, after fetch.py). `Fetcher.fetch` gives one entry
  per watched game (`lotto`, `euromillions`): a `Game` when the parsed table
  has both `next-draw-date` and `next-draw-jackpot` for it with truthy
  values, `None` otherwise.
- **Storage** (`storage.dfy`, after storage.py). `GamesRepository` keeps a
  label-to-`Game` table in a YAML file. `get_all` reads it and turns a
  missing file, an empty document or a YAML error into the empty table.
  It raises on a path `open` refuses for another reason and on a document
  that is a list or a scalar. `add` reads, sets one label and rewrites the
  file, and raises whatever its read raises.

`values.dfy` holds the shared vocabulary: Python scalars (`Str`, `Int`),
their truthiness, and the per-game dictionaries as maps.

The model follows the code, including where the modules disagree with each
other:

- The parser writes `next_draw_date` and `jackpot` under display names
  (`"EuroMillions"`). The builder reads `next-draw-date` and
  `next-draw-jackpot` under lower-case keys (`"euromillions"`).
  `Fetch.FetchPage` proves the result: composed, the two never build a
  `Game`, and every watched entry is `None`. `Fetch.FetchPageRekeyed` reads
  the parser's entry under the display name instead, and builds a `Game`
  whenever that entry has a truthy date and a truthy jackpot.
- No date or currency conversion exists in the code. Dates and jackpots stay
  the page's text, and `Game` holds them verbatim. A `Game` with a parsed
  date and an integer jackpot, a jackpot normaliser and edge-triggered
  alert rules are not in these files, so they are not modelled.
- `get_all` always reads `"games.yml"`, while `add` writes to the
  repository's `filename`. The round trip holds only when the two agree:
  `Storage.StoreOneGame` shows it does then, and
  `Storage.StoreOneGameElsewhere` shows an added game is never read back
  when `filename` names a different file. The repository records the path
  `get_all` reads as `readPath`. The constructor as written sets it to
  `"games.yml"`, and `ReadingOwnFile` sets it to `filename`, as evidently
  intended.

## Model

| member | source | states |
|---|---|---|
| `Parse.FindContent` | parse.py:50-72 | Looking up one meta name gives nothing iff no tag has that name. A tag's `content` is given verbatim, and a tag without `content` gives `""`. |
| `Parse.DecimalValue` | parse.py:74 | The value `int()` reads from a digit string is zero iff every digit is `0`. |
| `Parse.GameInfoFields` | parse.py:47-74 | Only the five meta field names can appear. Each of date, price, jackpot and draw day is recorded iff its meta tag exists. Date, jackpot and draw day hold the content verbatim, with `""` for a missing attribute. Price is `"£"` followed by the content. `roll_count` is recorded iff the tag exists and its content is neither `""` nor `"0"`, and it then holds the content's integer value. |
| `Parse.ExtractGameInfo` | parse.py:47-74 | The step-by-step filling of one game's dict yields exactly `GameInfo`, whose fields `Parse.GameInfoFields` describes. |
| `Parse.MetaInfo` | parse.py:36-79 | Result keys are display names only. A game appears iff at least one field was recorded for it, and then it holds exactly those fields. Every entry's fields are among the five meta field names. |
| `Parse.ExtractMetaInfo` | parse.py:31-79 | The loop over `game_mappings` produces `MetaInfo(doc)`. |
| `Parse.MetaInfoReadsOnlyMetaNames` | parse.py:36-70 | Two documents that agree on the thirty `{game_key}-{suffix}` names give the same meta games. No other tag is read. |
| `Parse.LoneZeroRollCountIsDropped` | parse.py:70-77 | A game whose only tag is a roll count of `""` or `"0"`, or one with no content, does not appear. |
| `Parse.DecimalRoundTrip` | parse.py:74 | Reading a number's decimal spelling back, as `int()` does, gives the number. |
| `Parse.LeadingZerosIgnored` | parse.py:74 | Leading zeros do not change the value `int()` reads from a digit string. |
| `Parse.PaddedRollCountIsRecorded` | parse.py:70-74 | Only the exact text `"0"` is skipped. A zero-padded roll count such as `"00"` or `"007"` is recorded, as the integer its digits after the padding denote (`0` and `7`). |
| `Parse.StripMarkers` | parse.py:117 | The result is no longer than the input and contains no `*` or `Δ`. |
| `Parse.StripMarkersConcat` | parse.py:117 | Stripping distributes over concatenation. Together with the one-character cases, this fixes the output as the input minus the markers, in the original order. |
| `Parse.StripMarkersKeepsOthers` | parse.py:117 | Every character other than `*` and `Δ` occurs as often in the output as in the input. |
| `Parse.StripMarkersFixesClean` | parse.py:117 | Text without markers is unchanged, so stripping is idempotent. |
| `Parse.MergeGames` | parse.py:16-27 | The result's games are those of either side. Meta-only games are unchanged and content-only games are taken as they are. A shared game has the union of the field sets, content values on shared fields and meta values on meta-only fields. |
| `Parse.MergeIsDetermined` | parse.py:22-27 | The merge characterisation has a single solution, so the result does not depend on the order in which content games are visited. |
| `Parse.ParseLotteryHtml` | parse.py:5-29 | The result is the merge of `MetaInfo(doc)` with the content games. |
| `Parse.GetOrNotAvailable` | parse.py:145-149 | A display field reads as its stored value when there is one, and as `'N/A'` only when the field is missing. |
| `Parse.FormatEntry` | parse.py:142-156 | An entry has `name` equal to its key and the five display fields, each the input value or `'N/A'`. It has `roll_count` iff the input has it, with the same value. Every other input field is dropped. |
| `Parse.FormatEntryIdempotent` | parse.py:143-156 | Formatting an already formatted entry changes nothing. |
| `Parse.FormatOutput` | parse.py:138-158 | The key set is unchanged, and every entry is `FormatEntry` of its key and fields. |
| `Values.Truthy` | fetch.py:39 | Among the scalars the pipeline stores, exactly `""` and `0` are false. |
| `Values.TruthyAt` | fetch.py:37-39 | A field that reads as true is present. A missing field reads as `None`, which is false. |
| `Fetch.BuildGames` | fetch.py:29-49 | Keys are exactly `{"lotto", "euromillions"}`. An entry is a `Game` iff the game is in the parsed table and both `next-draw-date` and `next-draw-jackpot` are present and truthy. A built `Game` holds the two values verbatim, and every other entry is `None`. |
| `Fetch.BuildReadsOnlyWatched` | fetch.py:34-47 | Tables that agree on the watched games give the same result. Unwatched entries are ignored, and the iteration order of the watched set does not matter. |
| `Fetch.ParsedGamesLackDateKey` | fetch.py:36-38 | No game in a merge of meta games and body games has a `next-draw-date` field. |
| `Fetch.FetchPage` | fetch.py:29-49 | Parsing and then building yields exactly the watched keys, each mapped to `None`. |
| `Fetch.DisplayName` | parse.py:36-43 | The display name of a watched game is the one `game_mappings` pairs with its key. |
| `Fetch.RekeyedBuild` | fetch.py:34-47 | Building from the parsed table re-keyed by display name gives every watched game its intended entry. That is a `Game` holding the parsed `next_draw_date` and `jackpot` exactly when both are truthy, and `None` otherwise. |
| `Fetch.FetchPageRekeyed` | fetch.py:29-49 | Parsing and then building from the re-keyed table yields the merge of the page's games, and the watched keys each mapped to their intended entry. |
| `Fetch.MetaTagsBuildWatchedGame` | tests/test_fetch.py:21-24 | When the page body says nothing about a watched game, non-empty meta date and jackpot tags give it the intended `Game`, holding their text. |
| `Storage.ReadError` | storage.py:36-46 | `get_all` raises exactly when the path is inaccessible or the document is not a mapping. The exception is an OSError or an AttributeError. Missing files, empty documents, YAML errors and tables do not raise. |
| `Storage.Load` | storage.py:39-46 | A document gives its own table. Any non-empty result comes from a document, so a missing file, an empty document and a YAML error all give the empty table. |
| `Storage.GamesRepository.constructor` | storage.py:19-21 | The dataclass constructor keeps `filename` and reads `"games.yml"`, whatever `filename` is. |
| `Storage.GamesRepository.ReadingOwnFile` | storage.py:19-21 | The repository as evidently intended: it keeps `filename` and reads that same file. |
| `Storage.GamesRepository.GetAll` | storage.py:34-46 | Raises OSError when `open` refuses the read path for a reason other than its absence, and AttributeError when the document is a list or a scalar. Otherwise returns the stored table: the file's table, or the empty table for a missing file, an empty document or a YAML error. |
| `Storage.GamesRepository.Add` | storage.py:23-32 | An exception from the read escapes and nothing is written, and so does an OSError from opening `filename`. Otherwise the file at `filename` becomes the previous `get_all` table with `label` set to the game. When `filename` is the read path, reading back gives the game under `label` and every other label keeps its entry. A missing, empty or malformed store ends up with exactly one entry. When `filename` is not the read path, `get_all` is unaffected. |
| `Storage.GamesRepository.AddAsWritten` | storage.py:23-32 | Always fails. Read and open errors escape with the files unchanged. Otherwise the file at `filename` is left empty and the call fails with AttributeError, so `get_all` then reads an empty table if `filename` is the read path. |
| `Storage.StoreOneGame` | tests/test_storage.py:7-16 | With the corrected `add`, adding one game to an empty store on `"games.yml"` succeeds and reads back as exactly one entry, equal to the game. |
| `Storage.StoreOneGameAsWritten` | tests/test_storage.py:7-16 | The same scenario with `add` as written fails with AttributeError, and the store reads back empty. |
| `Storage.StoreOneGameElsewhere` | storage.py:27-37 | With the corrected `add`, the repository on a path that names a different file from `"games.yml"`, and nothing at `"games.yml"`, the add succeeds but the added game is not read back. |
| `Storage.StoreOneGameAnywhere` | tests/test_storage.py:7-16 | On a repository whose `get_all` reads its own `filename`, the test's scenario reads back exactly the one added game, on every path. |
| `Storage.AddOverMalformed` | storage.py:44-46 | A malformed store reads as empty, so one call of the corrected `add` replaces it with a store holding just the new entry. |
| `Storage.AddOverList` | storage.py:25-41 | A store holding a YAML list makes `add` fail with AttributeError on its read, and the file is left as it was. |

## Left out

- The HTML traversal (`BeautifulSoup`, `soup.find`, `find_all`) is a foreign library. The meta tags are given as a map from tag name to optional `content` attribute. The result of `extract_content_info` (parse.py:81-136) is an input table, and only its `[*Δ]` cleanup is modelled.
- `main()` and the `__main__` block of parse.py, and all of main.py, are left out: they read files, print, load the environment and post to a webhook.
- `AbstractSource.get` is a network read. `Fetch.FetchPage` takes the parsed page directly.
- YAML text, `open()` and the printed warning in storage.py are left out. A file is one of missing, inaccessible, empty, malformed, not a mapping or a table of games. `Game(**game)` on a wrongly shaped entry, which raises TypeError, is not modelled, and neither is a failure of `yaml.dump` other than the `as_dict` one.
- The `Game` of fetch.py:14-17 has only the fields `next_draw_date` and `jackpot`, so the `Game(..., roll_count=2)` of tests/test_storage.py:9-11 raises TypeError before the test reaches `add`. The model's `Game` has the same two fields, so that call has no counterpart.
- Storage.GamesRepository.Add: paths are compared as strings, as if every file had one spelling. Two spellings of one file, such as `"./games.yml"`, an absolute path or a `Path`, count as two files, so the `filename != readPath` clause does not cover them.
- Storage.GamesRepository.AddAsWritten: paths are compared as strings, so a `filename` that spells `"games.yml"` another way is treated as a different file and its truncation is not seen by `get_all`.
- Storage.StoreOneGameElsewhere: paths are compared as strings, so its `path != "games.yml"` precondition also admits other spellings of the working directory's games.yml, which in Python are the very file `get_all` reads.
- `int()` at parse.py:74 is modelled only on digit strings, as a precondition (`RollCountsParse`). Python also accepts surrounding spaces, a sign and underscores, and raises on other text. Neither is modelled.
- Python dictionaries keep insertion order and the model's maps do not, so the order of keys in results is not modelled.
- `parse_lottery_html` updates the meta dicts in place (parse.py:25), which aliases them with its result. The model merges values instead, and nothing reads the meta dicts afterwards.
- Currency and date normalisation (`clean_jackpot`, imported by tests/test_parse.py:6) and the alert thresholds of main.py:18-21 do not exist in the modelled files.

## Findings

| source | as written | input that shows it | evidently intended | confidence | as-written member | corrected member |
|---|---|---|---|---|---|---|
| storage.py:27-29 | `add` opens `self.filename` for writing, which truncates it. It then serialises with `game.as_dict()`, which the `Game` of fetch.py:14-17 does not define, so it raises AttributeError and leaves the file empty. | `add("lotto", Game(...))` on any store, as in tests/test_storage.py:12 | The file is rewritten with the previous table plus the new entry. | high (not executed) | `Storage.GamesRepository.AddAsWritten` | `Storage.GamesRepository.Add` |
| fetch.py:35-38 | `fetch` looks each watched game up under its lower-case key and reads `next-draw-date` and `next-draw-jackpot`. The parser stores games under display names (parse.py:77) with fields `next_draw_date` and `jackpot` (parse.py:52, 62). | Any page, such as one with `euromillions-next-draw-date` and `euromillions-next-draw-jackpot` meta tags, for which tests/test_fetch.py:21-24 expects a EuroMillions `Game` | `fetch` reads the parser's entry for the game, so a page with a date and a jackpot for a watched game gives a `Game`. The date and integer conversions the test also expects exist nowhere in the code. | high (not executed) | `Fetch.FetchPage` | `Fetch.FetchPageRekeyed` |
| storage.py:37 | `get_all` reads `"games.yml"` in the working directory, whatever the repository's `filename`, while `add` writes `filename` (storage.py:27). | A constructible `Game` and a working `add`, with the repository on another file, such as a temporary directory's `games.yml`, and no `games.yml` in the working directory. In tests/test_storage.py the split stays hidden: the test fails earlier, first with the TypeError of lines 9-11 and then with the AttributeError of `as_dict` at line 12. | `get_all` reads the file `add` writes, so the added game is read back. | high (not executed) | `Storage.StoreOneGameElsewhere` | `Storage.StoreOneGameAnywhere` |
