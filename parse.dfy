/**
 The page-parsing stage (parse.py): reading per-game fields out of the page's
 `<meta>` tags, merging them with the fields read from the page body, the
 cleanup of jackpot text, and the normalisation of the result for display.

 The HTML traversal itself is not modelled: the page's meta tags are given as
 a `Document`, and the per-game fields read from the page body (the result of
 `extract_content_info`) are given as a `GameTable`.
 */
module Parse {
  import opened Values

  /** The page's meta tags, keyed by their `name` attribute. A name missing
      from the map has no tag; a tag without a `content` attribute maps to
      `None`. */
  type Document = map<string, Option<string>>

  /** `game_mappings`: meta-tag prefix and display name of each game, in
      declaration order. */
  const GameMappings: seq<(string, string)> := [
    ("lotto", "Lotto"),
    ("euromillions", "EuroMillions"),
    ("thunderball", "Thunderball"),
    ("setforlife", "Set For Life"),
    ("lotto-hotpicks", "Lotto HotPicks"),
    ("euromillions-hotpicks", "EuroMillions HotPicks")
  ]

  const GameNames: set<string> := set i | 0 <= i < |GameMappings| :: GameMappings[i].1

  const DateSuffix := "next-draw-date"
  const PriceSuffix := "price"
  const JackpotSuffix := "next-draw-jackpot"
  const DaySuffix := "next-draw-day"
  const RollSuffix := "roll-count"

  /** The five per-game meta-name suffixes that are looked up. */
  const MetaSuffixes: set<string> := {DateSuffix, PriceSuffix, JackpotSuffix, DaySuffix, RollSuffix}

  /** The field names a meta-derived game entry can carry. */
  const MetaFieldNames: set<string> := {"next_draw_date", "price", "jackpot", "draw_day", "roll_count"}

  /** The meta name looked up for one property of one game: `{game_key}-{suffix}`. */
  function MetaName(gameKey: string, suffix: string): string {
    gameKey + "-" + suffix
  }

  /** `soup.find('meta', {'name': name})` followed by `.get('content', '')`:
      `None` when no tag has that name, the empty string when the tag has no
      `content` attribute. */
  function FindContent(doc: Document, name: string): (r: Option<string>)
    ensures r.None? <==> name !in doc
    ensures name in doc && doc[name].Some? ==> r == doc[name]
    ensures name in doc && doc[name].None? ==> r == Some("")
  {
    if name in doc then Some(doc[name].GetOr("")) else None
  }

  // ---------------------------------------------------------------------
  // Decimal text, as read by Python's int() on a digit string

  predicate IsDigits(s: string) {
    forall i :: 0 <= i < |s| ==> '0' <= s[i] <= '9'
  }

  function DigitValue(c: char): nat
    requires '0' <= c <= '9'
  {
    c as int - '0' as int
  }

  /** The integer a digit string denotes (leading zeros allowed, the empty
      string read as 0). */
  function DecimalValue(s: string): (n: nat)
    requires IsDigits(s)
    ensures n == 0 <==> forall i :: 0 <= i < |s| ==> s[i] == '0'
    decreases |s|
  {
    if s == [] then 0
    else
      var init := s[..|s| - 1];
      assert forall i :: 0 <= i < |init| ==> init[i] == s[i];
      10 * DecimalValue(init) + DigitValue(s[|s| - 1])
  }

  function DigitChar(d: nat): (c: char)
    requires d < 10
    ensures '0' <= c <= '9' && DigitValue(c) == d
  {
    ('0' as int + d) as char
  }

  /** The canonical decimal spelling of a natural number, as `str()` prints it. */
  function DecimalString(n: nat): (s: string)
    ensures IsDigits(s) && |s| > 0
  {
    if n < 10 then [DigitChar(n)] else DecimalString(n / 10) + [DigitChar(n % 10)]
  }

  /** Reading back the canonical spelling of a number gives the number. */
  lemma {:induction false} DecimalRoundTrip(n: nat)
    ensures DecimalValue(DecimalString(n)) == n
  {
    var s := DecimalString(n);
    if n >= 10 {
      assert s[..|s| - 1] == DecimalString(n / 10);
      DecimalRoundTrip(n / 10);
    }
  }

  /** Leading zeros do not change the value `int()` reads. */
  lemma {:induction false} LeadingZerosIgnored(zeros: string, digits: string)
    requires forall i :: 0 <= i < |zeros| ==> zeros[i] == '0'
    requires IsDigits(digits)
    ensures IsDigits(zeros + digits) && DecimalValue(zeros + digits) == DecimalValue(digits)
    decreases |digits|
  {
    var s := zeros + digits;
    assert IsDigits(s) by {
      forall i | 0 <= i < |s|
        ensures '0' <= s[i] <= '9'
      {
        if i < |zeros| { assert s[i] == zeros[i]; } else { assert s[i] == digits[i - |zeros|]; }
      }
    }
    if digits == [] {
      assert s == zeros;
    } else {
      var init := digits[..|digits| - 1];
      assert s[..|s| - 1] == zeros + init;
      assert s[|s| - 1] == digits[|digits| - 1];
      LeadingZerosIgnored(zeros, init);
    }
  }

  // ---------------------------------------------------------------------
  // extract_meta_info

  /** The roll-count content, if the tag is there, is an ASCII digit string
      ("" and "0" included). This is a subset of what `int()` accepts: it
      leaves out surrounding spaces, a sign, underscores and non-ASCII
      digits, which `int()` also reads. */
  predicate RollCountParses(doc: Document, gameKey: string) {
    var c := FindContent(doc, MetaName(gameKey, RollSuffix));
    c.Some? ==> IsDigits(c.value)
  }

  /** The roll-count conversion succeeds for all six games. */
  predicate RollCountsParse(doc: Document) {
    forall i :: 0 <= i < |GameMappings| ==> RollCountParses(doc, GameMappings[i].0)
  }

  /** A roll count is recorded only when its content is non-empty and not "0". */
  predicate RollCountRecorded(content: string) {
    content != "" && content != "0"
  }

  /** The fields recorded, one lookup after the other, from the outcomes of
      the five lookups (`None` for a missing tag). */
  function RecordedFields(date: Option<string>, price: Option<string>, jackpot: Option<string>,
                          day: Option<string>, roll: Option<string>): Fields
    requires roll.Some? ==> IsDigits(roll.value)
  {
    var withDate := if date.Some? then map["next_draw_date" := Str(date.value)] else map[];
    var withPrice := if price.Some? then withDate["price" := Str("£" + price.value)] else withDate;
    var withJackpot := if jackpot.Some? then withPrice["jackpot" := Str(jackpot.value)] else withPrice;
    var withDay := if day.Some? then withJackpot["draw_day" := Str(day.value)] else withJackpot;
    if roll.Some? && RollCountRecorded(roll.value) then withDay["roll_count" := Int(DecimalValue(roll.value))]
    else withDay
  }

  lemma RecordedFieldsKeys(date: Option<string>, price: Option<string>, jackpot: Option<string>,
                           day: Option<string>, roll: Option<string>)
    requires roll.Some? ==> IsDigits(roll.value)
    ensures RecordedFields(date, price, jackpot, day, roll).Keys <= MetaFieldNames
    ensures "next_draw_date" in RecordedFields(date, price, jackpot, day, roll) <==> date.Some?
    ensures "price" in RecordedFields(date, price, jackpot, day, roll) <==> price.Some?
    ensures "jackpot" in RecordedFields(date, price, jackpot, day, roll) <==> jackpot.Some?
    ensures "draw_day" in RecordedFields(date, price, jackpot, day, roll) <==> day.Some?
    ensures "roll_count" in RecordedFields(date, price, jackpot, day, roll) <==>
      roll.Some? && RollCountRecorded(roll.value)
  {
  }

  lemma RecordedFieldsValues(date: Option<string>, price: Option<string>, jackpot: Option<string>,
                             day: Option<string>, roll: Option<string>)
    requires roll.Some? ==> IsDigits(roll.value)
    ensures date.Some? ==> RecordedFields(date, price, jackpot, day, roll)["next_draw_date"] == Str(date.value)
    ensures price.Some? ==> RecordedFields(date, price, jackpot, day, roll)["price"] == Str("£" + price.value)
    ensures jackpot.Some? ==> RecordedFields(date, price, jackpot, day, roll)["jackpot"] == Str(jackpot.value)
    ensures day.Some? ==> RecordedFields(date, price, jackpot, day, roll)["draw_day"] == Str(day.value)
    ensures roll.Some? && RollCountRecorded(roll.value) ==>
      RecordedFields(date, price, jackpot, day, roll)["roll_count"] == Int(DecimalValue(roll.value))
  {
  }

  /** The fields `extract_meta_info` records for one game, from the five meta
      tags of that game. */
  function GameInfo(doc: Document, gameKey: string): Fields
    requires RollCountParses(doc, gameKey)
  {
    RecordedFields(
      FindContent(doc, MetaName(gameKey, DateSuffix)),
      FindContent(doc, MetaName(gameKey, PriceSuffix)),
      FindContent(doc, MetaName(gameKey, JackpotSuffix)),
      FindContent(doc, MetaName(gameKey, DaySuffix)),
      FindContent(doc, MetaName(gameKey, RollSuffix)))
  }

  /** What one game's recorded fields are, tag by tag. */
  lemma GameInfoFields(doc: Document, gameKey: string)
    requires RollCountParses(doc, gameKey)
    ensures GameInfo(doc, gameKey).Keys <= MetaFieldNames
    ensures "next_draw_date" in GameInfo(doc, gameKey) <==> MetaName(gameKey, DateSuffix) in doc
    ensures "next_draw_date" in GameInfo(doc, gameKey) ==>
      GameInfo(doc, gameKey)["next_draw_date"] == Str(doc[MetaName(gameKey, DateSuffix)].GetOr(""))
    ensures "price" in GameInfo(doc, gameKey) <==> MetaName(gameKey, PriceSuffix) in doc
    ensures "price" in GameInfo(doc, gameKey) ==>
      GameInfo(doc, gameKey)["price"] == Str("£" + doc[MetaName(gameKey, PriceSuffix)].GetOr(""))
    ensures MetaName(gameKey, PriceSuffix) in doc && doc[MetaName(gameKey, PriceSuffix)].None? ==>
      GameInfo(doc, gameKey)["price"] == Str("£")
    ensures "jackpot" in GameInfo(doc, gameKey) <==> MetaName(gameKey, JackpotSuffix) in doc
    ensures "jackpot" in GameInfo(doc, gameKey) ==>
      GameInfo(doc, gameKey)["jackpot"] == Str(doc[MetaName(gameKey, JackpotSuffix)].GetOr(""))
    ensures "draw_day" in GameInfo(doc, gameKey) <==> MetaName(gameKey, DaySuffix) in doc
    ensures "draw_day" in GameInfo(doc, gameKey) ==>
      GameInfo(doc, gameKey)["draw_day"] == Str(doc[MetaName(gameKey, DaySuffix)].GetOr(""))
    ensures "roll_count" in GameInfo(doc, gameKey) <==>
      MetaName(gameKey, RollSuffix) in doc && RollCountRecorded(doc[MetaName(gameKey, RollSuffix)].GetOr(""))
    ensures "roll_count" in GameInfo(doc, gameKey) ==>
      GameInfo(doc, gameKey)["roll_count"] == Int(DecimalValue(doc[MetaName(gameKey, RollSuffix)].GetOr("")))
  {
    var date := FindContent(doc, MetaName(gameKey, DateSuffix));
    var price := FindContent(doc, MetaName(gameKey, PriceSuffix));
    var jackpot := FindContent(doc, MetaName(gameKey, JackpotSuffix));
    var day := FindContent(doc, MetaName(gameKey, DaySuffix));
    var roll := FindContent(doc, MetaName(gameKey, RollSuffix));
    RecordedFieldsKeys(date, price, jackpot, day, roll);
    RecordedFieldsValues(date, price, jackpot, day, roll);
  }

  /** The (display name, recorded fields) pair of each of the first `n` games. */
  function MetaEntries(doc: Document, n: nat): (entries: seq<(string, Fields)>)
    requires n <= |GameMappings| && RollCountsParse(doc)
    ensures |entries| == n
  {
    if n == 0 then []
    else MetaEntries(doc, n - 1) + [(GameMappings[n - 1].1, GameInfo(doc, GameMappings[n - 1].0))]
  }

  lemma {:induction false} MetaEntriesAt(doc: Document, n: nat, i: nat)
    requires n <= |GameMappings| && RollCountsParse(doc) && i < n
    ensures MetaEntries(doc, n)[i] == (GameMappings[i].1, GameInfo(doc, GameMappings[i].0))
  {
    if i < n - 1 {
      MetaEntriesAt(doc, n - 1, i);
    }
  }

  /** The table the `if game_info: games[game_name] = game_info` step builds
      from `entries` in order. */
  function RecordNonEmpty(entries: seq<(string, Fields)>): GameTable
    decreases |entries|
  {
    if entries == [] then map[]
    else
      var (name, info) := entries[|entries| - 1];
      var prev := RecordNonEmpty(entries[..|entries| - 1]);
      if info == map[] then prev else prev[name := info]
  }

  lemma RecordNonEmptySnoc(entries: seq<(string, Fields)>, name: string, info: Fields)
    ensures RecordNonEmpty(entries + [(name, info)]) ==
      if info == map[] then RecordNonEmpty(entries) else RecordNonEmpty(entries)[name := info]
  {
    assert (entries + [(name, info)])[..|entries|] == entries;
  }

  function NamesOf(entries: seq<(string, Fields)>): set<string> {
    set i | 0 <= i < |entries| :: entries[i].0
  }

  predicate NamesDistinct(entries: seq<(string, Fields)>) {
    forall i, j :: 0 <= i < j < |entries| ==> entries[i].0 != entries[j].0
  }

  lemma {:induction false} RecordNonEmptyKeys(entries: seq<(string, Fields)>)
    ensures RecordNonEmpty(entries).Keys <= NamesOf(entries)
    decreases |entries|
  {
    if entries != [] {
      var last := |entries| - 1;
      var init := entries[..last];
      RecordNonEmptyKeys(init);
      forall name | name in NamesOf(init)
        ensures name in NamesOf(entries)
      {
        var i :| 0 <= i < last && init[i].0 == name;
        assert entries[i].0 == name;
      }
    }
  }

  lemma {:induction false} RecordNonEmptyShape(entries: seq<(string, Fields)>)
    requires NamesDistinct(entries)
    ensures forall i :: 0 <= i < |entries| ==>
      (entries[i].0 in RecordNonEmpty(entries) <==> entries[i].1 != map[])
    ensures forall i :: 0 <= i < |entries| && entries[i].0 in RecordNonEmpty(entries) ==>
      RecordNonEmpty(entries)[entries[i].0] == entries[i].1
    decreases |entries|
  {
    if entries != [] {
      var last := |entries| - 1;
      var init := entries[..last];
      var (name, info) := entries[last];
      var prev := RecordNonEmpty(init);
      assert NamesDistinct(init) by {
        forall i, j | 0 <= i < j < |init|
          ensures init[i].0 != init[j].0
        {
          assert init[i] == entries[i] && init[j] == entries[j];
        }
      }
      RecordNonEmptyShape(init);
      RecordNonEmptyKeys(init);
      forall i | 0 <= i < last
        ensures entries[i].0 in RecordNonEmpty(entries) <==> entries[i].1 != map[]
        ensures entries[i].0 in RecordNonEmpty(entries) ==>
          RecordNonEmpty(entries)[entries[i].0] == entries[i].1
      {
        assert init[i] == entries[i] && entries[i].0 != name;
      }
    }
  }

  lemma DisplayNamesDistinct(i: nat, j: nat)
    requires i < j < |GameMappings|
    ensures GameMappings[i].1 != GameMappings[j].1
  {
  }

  lemma MetaInfoShape(doc: Document)
    requires RollCountsParse(doc)
    ensures RecordNonEmpty(MetaEntries(doc, |GameMappings|)).Keys <= GameNames
    ensures forall i :: 0 <= i < |GameMappings| ==>
      (GameMappings[i].1 in RecordNonEmpty(MetaEntries(doc, |GameMappings|)) <==> GameInfo(doc, GameMappings[i].0) != map[])
    ensures forall i :: 0 <= i < |GameMappings| && GameMappings[i].1 in RecordNonEmpty(MetaEntries(doc, |GameMappings|)) ==>
      RecordNonEmpty(MetaEntries(doc, |GameMappings|))[GameMappings[i].1] == GameInfo(doc, GameMappings[i].0)
  {
    var entries := MetaEntries(doc, |GameMappings|);
    forall i | 0 <= i < |GameMappings|
      ensures entries[i] == (GameMappings[i].1, GameInfo(doc, GameMappings[i].0))
    {
      MetaEntriesAt(doc, |GameMappings|, i);
    }
    assert NamesDistinct(entries) by {
      forall i, j | 0 <= i < j < |entries|
        ensures entries[i].0 != entries[j].0
      {
        DisplayNamesDistinct(i, j);
      }
    }
    RecordNonEmptyKeys(entries);
    RecordNonEmptyShape(entries);
    assert NamesOf(entries) == GameNames;
  }

  /** `extract_meta_info`'s result: only display names appear, each holding
      meta fields only; a game appears exactly when at least one of its
      fields was recorded, and then holds those fields. */
  function MetaInfo(doc: Document): (games: GameTable)
    requires RollCountsParse(doc)
    ensures games.Keys <= GameNames
    ensures forall i :: 0 <= i < |GameMappings| ==>
      (GameMappings[i].1 in games <==> GameInfo(doc, GameMappings[i].0) != map[])
    ensures forall i :: 0 <= i < |GameMappings| && GameMappings[i].1 in games ==>
      games[GameMappings[i].1] == GameInfo(doc, GameMappings[i].0)
    ensures forall name :: name in games ==> games[name].Keys <= MetaFieldNames
  {
    MetaInfoShape(doc);
    MetaFieldsOnly(doc);
    RecordNonEmpty(MetaEntries(doc, |GameMappings|))
  }

  lemma MetaFieldsOnly(doc: Document)
    requires RollCountsParse(doc)
    ensures forall name :: name in RecordNonEmpty(MetaEntries(doc, |GameMappings|)) ==>
      RecordNonEmpty(MetaEntries(doc, |GameMappings|))[name].Keys <= MetaFieldNames
  {
    MetaInfoShape(doc);
    var games := RecordNonEmpty(MetaEntries(doc, |GameMappings|));
    forall name | name in games
      ensures games[name].Keys <= MetaFieldNames
    {
      var i :| 0 <= i < |GameMappings| && GameMappings[i].1 == name;
      GameInfoFields(doc, GameMappings[i].0);
    }
  }

  /** The body of `extract_meta_info`'s loop for one game: probe the game's
      five meta tags in turn, recording a field for each one found. */
  method ExtractGameInfo(doc: Document, gameKey: string) returns (info: Fields)
    requires RollCountParses(doc, gameKey)
    ensures info == GameInfo(doc, gameKey)
  {
    info := map[];
    var date := FindContent(doc, MetaName(gameKey, DateSuffix));
    if date.Some? {
      info := info["next_draw_date" := Str(date.value)];
    }
    var price := FindContent(doc, MetaName(gameKey, PriceSuffix));
    if price.Some? {
      info := info["price" := Str("£" + price.value)];
    }
    var jackpot := FindContent(doc, MetaName(gameKey, JackpotSuffix));
    if jackpot.Some? {
      info := info["jackpot" := Str(jackpot.value)];
    }
    var day := FindContent(doc, MetaName(gameKey, DaySuffix));
    if day.Some? {
      info := info["draw_day" := Str(day.value)];
    }
    var roll := FindContent(doc, MetaName(gameKey, RollSuffix));
    if roll.Some? {
      var rollCount := roll.value;
      if rollCount != "" && rollCount != "0" {
        info := info["roll_count" := Int(DecimalValue(rollCount))];
      }
    }
  }

  /** `extract_meta_info`: for each game, probe its five meta tags and record
      the fields found; keep the game only if something was recorded. */
  method ExtractMetaInfo(doc: Document) returns (games: GameTable)
    requires RollCountsParse(doc)
    ensures games == MetaInfo(doc)
  {
    games := map[];
    for i := 0 to |GameMappings|
      invariant games == RecordNonEmpty(MetaEntries(doc, i))
    {
      var (gameKey, gameName) := GameMappings[i];
      var info := ExtractGameInfo(doc, gameKey);
      RecordNonEmptySnoc(MetaEntries(doc, i), gameName, info);
      if info != map[] {
        games := games[gameName := info];
      }
    }
  }

  /** Two documents whose tags agree on one meta name. */
  predicate AgreeOn(doc1: Document, doc2: Document, name: string) {
    (name in doc1 <==> name in doc2) && (name in doc1 ==> doc1[name] == doc2[name])
  }

  /** Two documents that agree on the five meta names of one game. */
  predicate SameGameTags(doc1: Document, doc2: Document, gameKey: string) {
    forall suffix :: suffix in MetaSuffixes ==> AgreeOn(doc1, doc2, MetaName(gameKey, suffix))
  }

  /** Two documents that agree on every `{game_key}-{suffix}` name. */
  predicate SameMetaTags(doc1: Document, doc2: Document) {
    forall i :: 0 <= i < |GameMappings| ==> SameGameTags(doc1, doc2, GameMappings[i].0)
  }

  /** The meta stage reads nothing but the thirty `{game_key}-{suffix}` names:
      documents that agree on those give the same result. */
  lemma MetaInfoReadsOnlyMetaNames(doc1: Document, doc2: Document)
    requires SameMetaTags(doc1, doc2)
    requires RollCountsParse(doc1)
    ensures RollCountsParse(doc2)
    ensures MetaInfo(doc1) == MetaInfo(doc2)
  {
    forall i | 0 <= i < |GameMappings|
      ensures RollCountParses(doc2, GameMappings[i].0)
    {
      assert AgreeOn(doc1, doc2, MetaName(GameMappings[i].0, RollSuffix));
    }
    MetaEntriesAgree(doc1, doc2, |GameMappings|);
  }

  lemma {:induction false} MetaEntriesAgree(doc1: Document, doc2: Document, n: nat)
    requires n <= |GameMappings|
    requires SameMetaTags(doc1, doc2) && RollCountsParse(doc1) && RollCountsParse(doc2)
    ensures MetaEntries(doc1, n) == MetaEntries(doc2, n)
  {
    if n > 0 {
      MetaEntriesAgree(doc1, doc2, n - 1);
      var k := GameMappings[n - 1].0;
      assert SameGameTags(doc1, doc2, k);
      forall suffix | suffix in MetaSuffixes
        ensures FindContent(doc1, MetaName(k, suffix)) == FindContent(doc2, MetaName(k, suffix))
      {
        assert AgreeOn(doc1, doc2, MetaName(k, suffix));
      }
    }
  }

  /** A game whose only meta tag is a roll count of "" or "0" (or one without
      content) records nothing and so does not appear. */
  lemma LoneZeroRollCountIsDropped(doc: Document, i: nat)
    requires i < |GameMappings| && RollCountsParse(doc)
    requires forall suffix :: suffix in MetaSuffixes && suffix != RollSuffix ==>
      MetaName(GameMappings[i].0, suffix) !in doc
    requires MetaName(GameMappings[i].0, RollSuffix) in doc
    requires !RollCountRecorded(doc[MetaName(GameMappings[i].0, RollSuffix)].GetOr(""))
    ensures GameMappings[i].1 !in MetaInfo(doc)
  {
    var info := GameInfo(doc, GameMappings[i].0);
    GameInfoFields(doc, GameMappings[i].0);
    assert DateSuffix in MetaSuffixes && PriceSuffix in MetaSuffixes;
    assert JackpotSuffix in MetaSuffixes && DaySuffix in MetaSuffixes;
    assert info.Keys == {};
  }

  /** Only the exact text "0" is skipped: a zero-padded roll count such as
      "00" or "007" is recorded, with the value of its digits after the
      padding. */
  lemma PaddedRollCountIsRecorded(doc: Document, gameKey: string, zeros: string, digits: string)
    requires RollCountParses(doc, gameKey)
    requires MetaName(gameKey, RollSuffix) in doc
    requires doc[MetaName(gameKey, RollSuffix)] == Some(zeros + digits)
    requires |zeros| > 0 && forall i :: 0 <= i < |zeros| ==> zeros[i] == '0'
    requires |digits| > 0 && IsDigits(digits)
    ensures "roll_count" in GameInfo(doc, gameKey)
    ensures GameInfo(doc, gameKey)["roll_count"] == Int(DecimalValue(digits))
  {
    GameInfoFields(doc, gameKey);
    assert |zeros + digits| >= 2;
    LeadingZerosIgnored(zeros, digits);
  }

  // ---------------------------------------------------------------------
  // The cleanup of jackpot text in extract_content_info

  /** The characters `re.sub(r'[*Δ]', '', ...)` removes. */
  predicate IsMarker(c: char) {
    c == '*' || c == '\U{0394}'
  }

  /** Jackpot text with every `*` and `Δ` removed. */
  function StripMarkers(s: string): (r: string)
    ensures |r| <= |s|
    ensures forall i :: 0 <= i < |r| ==> !IsMarker(r[i])
  {
    if s == [] then []
    else if IsMarker(s[0]) then StripMarkers(s[1..])
    else [s[0]] + StripMarkers(s[1..])
  }

  /** Stripping works piecewise: together with the one-character cases this
      pins the result down as the input with the markers deleted and every
      other character kept in its place in the order. */
  lemma {:induction false} StripMarkersConcat(a: string, b: string)
    ensures StripMarkers(a + b) == StripMarkers(a) + StripMarkers(b)
  {
    if a == [] {
      assert a + b == b;
    } else {
      assert (a + b)[0] == a[0];
      assert (a + b)[1..] == a[1..] + b;
      StripMarkersConcat(a[1..], b);
    }
  }

  /** Every non-marker character occurs as often after stripping as before. */
  lemma {:induction false} StripMarkersKeepsOthers(s: string, c: char)
    requires !IsMarker(c)
    ensures multiset(StripMarkers(s))[c] == multiset(s)[c]
  {
    if s != [] {
      StripMarkersKeepsOthers(s[1..], c);
      assert s == [s[0]] + s[1..];
    }
  }

  /** Text without markers is left as it is; in particular stripping twice is
      stripping once. */
  lemma {:induction false} StripMarkersFixesClean(s: string)
    requires forall i :: 0 <= i < |s| ==> !IsMarker(s[i])
    ensures StripMarkers(s) == s
  {
    if s != [] {
      StripMarkersFixesClean(s[1..]);
    }
  }

  // ---------------------------------------------------------------------
  // parse_lottery_html: the merge

  /** The field names `extract_content_info` can record for a game. */
  const ContentFieldNames: set<string> := {"draw_day", "jackpot", "price", "draw_days"}

  /** A table shaped like `extract_content_info`'s result: text values under
      the content field names only. */
  predicate ContentShaped(content: GameTable) {
    forall name :: name in content ==>
      && content[name].Keys <= ContentFieldNames
      && (forall field :: field in content[name] ==> content[name][field].Str?)
  }

  /** `fields` is `meta` updated with `content` by `dict.update`: the field
      sets are joined and the content value wins on a shared field. */
  predicate IsUpdate(meta: Fields, content: Fields, fields: Fields) {
    && fields.Keys == meta.Keys + content.Keys
    && (forall field :: field in content ==> fields[field] == content[field])
    && (forall field :: field in meta && field !in content ==> fields[field] == meta[field])
  }

  /** The entry `parse_lottery_html` leaves for one game: a game on one side
      only keeps that side's fields; a shared game gets the update. */
  ghost predicate MergedEntry(meta: GameTable, content: GameTable, games: GameTable, name: string)
    requires name in games
  {
    if name in meta && name in content then IsUpdate(meta[name], content[name], games[name])
    else if name in content then games[name] == content[name]
    else name in meta && games[name] == meta[name]
  }

  /** `games` is `meta` with `content` merged in as `parse_lottery_html` does
      it: every game of either side appears, each with its merged entry. */
  ghost predicate IsMerge(meta: GameTable, content: GameTable, games: GameTable) {
    && games.Keys == meta.Keys + content.Keys
    && forall name :: name in games ==> MergedEntry(meta, content, games, name)
  }

  /** `dict.update` has a single outcome. */
  lemma UpdateIsDetermined(meta: Fields, content: Fields, f1: Fields, f2: Fields)
    requires IsUpdate(meta, content, f1) && IsUpdate(meta, content, f2)
    ensures f1 == f2
  {
    forall field | field in f1
      ensures f1[field] == f2[field]
    {
    }
  }

  /** The merge is a function of its two inputs: whatever order the content
      games are visited in, the result is the same. */
  lemma MergeIsDetermined(meta: GameTable, content: GameTable, g1: GameTable, g2: GameTable)
    requires IsMerge(meta, content, g1) && IsMerge(meta, content, g2)
    ensures g1 == g2
  {
    forall name | name in g1
      ensures g1[name] == g2[name]
    {
      assert MergedEntry(meta, content, g1, name) && MergedEntry(meta, content, g2, name);
      if name in meta && name in content {
        UpdateIsDetermined(meta[name], content[name], g1[name], g2[name]);
      }
    }
  }

  /** One iteration of the merge loop keeps the characterisation, with the
      visited content games growing by one. */
  lemma MergeStep(meta: GameTable, done: GameTable, games: GameTable, name: string, info: Fields)
    requires IsMerge(meta, done, games) && name !in done
    ensures IsMerge(meta, done[name := info],
                    if name in games then games[name := games[name] + info] else games[name := info])
  {
    var done' := done[name := info];
    var games' := if name in games then games[name := games[name] + info] else games[name := info];
    forall n | n in games'
      ensures MergedEntry(meta, done', games', n)
    {
      if n == name {
        if name in games {
          assert MergedEntry(meta, done, games, name);
        }
      } else {
        assert MergedEntry(meta, done, games, n);
      }
    }
  }

  lemma VisitOne(content: GameTable, pending: set<string>, name: string)
    requires name in pending && name in content
    ensures content - (pending - {name}) == (content - pending)[name := content[name]]
  {
    var lhs := content - (pending - {name});
    var rhs := (content - pending)[name := content[name]];
    assert lhs.Keys == rhs.Keys;
    forall k | k in lhs
      ensures lhs[k] == rhs[k]
    {
    }
  }

  /** The merge loop of `parse_lottery_html`, starting from the meta games. */
  method MergeGames(meta: GameTable, content: GameTable) returns (games: GameTable)
    ensures IsMerge(meta, content, games)
  {
    games := meta;
    var pending := content.Keys;
    while pending != {}
      invariant pending <= content.Keys
      invariant IsMerge(meta, content - pending, games)
      decreases pending
    {
      var name :| name in pending;
      ghost var done := content - pending;
      MergeStep(meta, done, games, name, content[name]);
      if name in games {
        games := games[name := games[name] + content[name]];
      } else {
        games := games[name := content[name]];
      }
      VisitOne(content, pending, name);
      pending := pending - {name};
    }
    assert content - pending == content;
  }

  /** `parse_lottery_html`: meta games first, then content games merged on top. */
  method ParseLotteryHtml(doc: Document, content: GameTable) returns (games: GameTable)
    requires RollCountsParse(doc)
    ensures IsMerge(MetaInfo(doc), content, games)
  {
    var metaGames := ExtractMetaInfo(doc);
    games := MergeGames(metaGames, content);
  }

  // ---------------------------------------------------------------------
  // format_output

  /** The fields every formatted entry carries, defaulting to 'N/A'. */
  const DefaultedFields: set<string> := {"jackpot", "price", "next_draw_date", "draw_day", "draw_days"}

  const NotAvailable: Value := Str("N/A")

  /** One formatted entry: the game's name, the five display fields with an
      'N/A' default, and the roll count only if the game has one; every other
      input field is dropped. */
  function FormatEntry(name: string, info: Fields): (entry: Fields)
    ensures entry.Keys == {"name"} + DefaultedFields + (if "roll_count" in info then {"roll_count"} else {})
    ensures entry["name"] == Str(name)
    ensures forall field :: field in DefaultedFields ==> entry[field] == GetOrNotAvailable(info, field)
    ensures "roll_count" in info ==> entry["roll_count"] == info["roll_count"]
  {
    var entry := map[
      "name" := Str(name),
      "jackpot" := GetOrNotAvailable(info, "jackpot"),
      "price" := GetOrNotAvailable(info, "price"),
      "next_draw_date" := GetOrNotAvailable(info, "next_draw_date"),
      "draw_day" := GetOrNotAvailable(info, "draw_day"),
      "draw_days" := GetOrNotAvailable(info, "draw_days")
    ];
    if "roll_count" in info then entry["roll_count" := info["roll_count"]] else entry
  }

  /** `info.get(field, 'N/A')`: the stored value when there is one, and
      `'N/A'` only for a missing field. */
  function GetOrNotAvailable(info: Fields, field: string): (v: Value)
    ensures field in info ==> v == info[field]
    ensures field !in info ==> v == NotAvailable
  {
    if field in info then info[field] else NotAvailable
  }

  /** Formatting a formatted entry changes nothing. */
  lemma FormatEntryIdempotent(name: string, info: Fields)
    ensures FormatEntry(name, FormatEntry(name, info)) == FormatEntry(name, info)
  {
    var once := FormatEntry(name, info);
    var twice := FormatEntry(name, once);
    assert twice.Keys == once.Keys;
    forall field | field in once
      ensures twice[field] == once[field]
    {
      if field in DefaultedFields {
        assert field in once;
      }
    }
  }

  /** `format_output`: one formatted entry per game, under the same key. */
  method FormatOutput(games: GameTable) returns (formatted: GameTable)
    ensures formatted.Keys == games.Keys
    ensures forall name :: name in games ==> formatted[name] == FormatEntry(name, games[name])
  {
    formatted := map[];
    var pending := games.Keys;
    while pending != {}
      invariant pending <= games.Keys
      invariant formatted.Keys == games.Keys - pending
      invariant forall name :: name in formatted ==> formatted[name] == FormatEntry(name, games[name])
      decreases pending
    {
      var name :| name in pending;
      var entry := FormatEntry(name, games[name]);
      formatted := formatted[name := entry];
      pending := pending - {name};
    }
  }
}
