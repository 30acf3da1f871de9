/** The read-only side of the episode library plugin: how an episode's
    season/episode identifier is resolved, how its display titles are built
    from its season's titles, and how a title is normalised for matching. */
module EpisodeNaming {
  import opened Wrappers
  import opened PyValues

  // ---------------------------------------------------------------------
  // Identifier resolution
  // ---------------------------------------------------------------------

  /** The `{season, episode}` pair; each part is an integer or None. */
  datatype EpisodeId = EpisodeId(season: Option<int>, episode: Option<int>)

  predicate IsEpisode(library: map<string, PyValue>) {
    Get(library, "type", NoneValue) == Str("episode")
  }

  /** What `identifier` reads without raising: an `info` dictionary whose
      `map_episode` entry, when present, is a dictionary, and whose scene
      mapping, when it is truthy, is a dictionary too. */
  predicate HasSceneInfo(library: map<string, PyValue>) {
    && "info" in library
    && library["info"].Dict?
    && Get(library["info"].entries, "map_episode", Dict(map[])).Dict?
    && var scene := Get(Get(library["info"].entries, "map_episode", Dict(map[])).entries, "scene", NoneValue);
       Truthy(scene) ==> scene.Dict?
  }

  /** `library['info'].get('map_episode', {}).get('scene')` */
  function SceneMap(library: map<string, PyValue>): PyValue
    requires HasSceneInfo(library)
  {
    Get(Get(library["info"].entries, "map_episode", Dict(map[])).entries, "scene", NoneValue)
  }

  /** The raw season and episode values before coercion: from the scene
      mapping when it is truthy (even when it lacks one of the keys),
      otherwise from the episode's own numbers. */
  function RawNumbers(library: map<string, PyValue>): (PyValue, PyValue)
    requires HasSceneInfo(library)
  {
    var scene := SceneMap(library);
    if Truthy(scene) then
      (Get(scene.entries, "season", NoneValue), Get(scene.entries, "episode", NoneValue))
    else
      (Get(library, "season_number", NoneValue), Get(library, "episode_number", NoneValue))
  }

  /** `EpisodeLibraryPlugin.identifier`: None for anything that is not an
      episode; otherwise both numbers, each coerced to an integer or None. */
  function Identifier(h: Helpers, library: map<string, PyValue>): (r: Option<EpisodeId>)
    requires IsEpisode(library) ==> HasSceneInfo(library)
    ensures r.Some? <==> IsEpisode(library)
    ensures r.Some? ==>
      var scene := SceneMap(library);
      var season := if Truthy(scene) then Get(scene.entries, "season", NoneValue)
                    else Get(library, "season_number", NoneValue);
      var episode := if Truthy(scene) then Get(scene.entries, "episode", NoneValue)
                     else Get(library, "episode_number", NoneValue);
      && (r.value.season == None || r.value.season == h.intOf(season))
      && (h.intOf(season).Some? ==> r.value.season == h.intOf(season))
      && (r.value.episode == None || r.value.episode == h.intOf(episode))
      && (h.intOf(episode).Some? ==> r.value.episode == h.intOf(episode))
  {
    if !IsEpisode(library) then None
    else
      var (season, episode) := RawNumbers(library);
      Some(EpisodeId(TryInt(h, season, None), TryInt(h, episode, None)))
  }

  /** With a truthy scene mapping the episode's own numbers play no part. */
  lemma SceneMapOverridesOwnNumbers(h: Helpers, library: map<string, PyValue>, season: PyValue, episode: PyValue)
    requires IsEpisode(library) && HasSceneInfo(library)
    requires Truthy(SceneMap(library))
    ensures var other := library["season_number" := season]["episode_number" := episode];
      IsEpisode(other) && HasSceneInfo(other) && Identifier(h, other) == Identifier(h, library)
  {
    var other := library["season_number" := season]["episode_number" := episode];
    assert other["info"] == library["info"];
    assert other["type"] == library["type"];
  }

  /** A truthy scene mapping that lacks a key yields the coercion of None for
      that number, never the episode's own number. */
  lemma SceneMapWithoutNumbers(h: Helpers, library: map<string, PyValue>)
    requires IsEpisode(library) && HasSceneInfo(library)
    requires Truthy(SceneMap(library))
    requires "season" !in SceneMap(library).entries && "episode" !in SceneMap(library).entries
    ensures Identifier(h, library) == Some(EpisodeId(TryInt(h, NoneValue, None), TryInt(h, NoneValue, None)))
  {
  }

  /** Without a scene mapping the identifier follows the episode's own numbers. */
  lemma OwnNumbersWithoutSceneMap(h: Helpers, library: map<string, PyValue>, s: int, e: int)
    requires IsEpisode(library) && HasSceneInfo(library)
    requires !Truthy(SceneMap(library))
    requires h.intOf(Int(s)) == Some(s) && h.intOf(Int(e)) == Some(e)
    ensures var own := library["season_number" := Int(s)]["episode_number" := Int(e)];
      IsEpisode(own) && HasSceneInfo(own) && Identifier(h, own) == Some(EpisodeId(Some(s), Some(e)))
  {
    var own := library["season_number" := Int(s)]["episode_number" := Int(e)];
    assert own["info"] == library["info"];
    assert own["type"] == library["type"];
  }

  // ---------------------------------------------------------------------
  // The `E%02d` episode suffix
  // ---------------------------------------------------------------------

  predicate IsDigit(c: char) { '0' <= c <= '9' }

  function DigitChar(d: nat): (c: char)
    requires d < 10
    ensures IsDigit(c)
  {
    ['0', '1', '2', '3', '4', '5', '6', '7', '8', '9'][d]
  }

  function DigitValue(c: char): (d: nat)
    requires IsDigit(c)
    ensures d < 10
  {
    (c as int - '0' as int) as nat
  }

  lemma DigitValueOfDigitChar(d: nat)
    requires d < 10
    ensures DigitValue(DigitChar(d)) == d
  {
  }

  /** Decimal notation of a natural number, without leading zeros. */
  function Decimal(n: nat): (s: string)
    ensures |s| >= 1 && (forall i :: 0 <= i < |s| ==> IsDigit(s[i]))
    ensures n >= 10 ==> |s| >= 2
    decreases n
  {
    if n < 10 then [DigitChar(n)] else Decimal(n / 10) + [DigitChar(n % 10)]
  }

  /** Reading a string of digits back as a number. */
  function ParseDecimal(s: string): nat
    requires forall i :: 0 <= i < |s| ==> IsDigit(s[i])
  {
    if s == [] then 0 else ParseDecimal(s[..|s| - 1]) * 10 + DigitValue(s[|s| - 1])
  }

  lemma {:induction false} ParseDecimalOfDecimal(n: nat)
    ensures ParseDecimal(Decimal(n)) == n
    decreases n
  {
    var s := Decimal(n);
    if n < 10 {
      assert s[..|s| - 1] == [];
      DigitValueOfDigitChar(n);
    } else {
      assert s[..|s| - 1] == Decimal(n / 10);
      ParseDecimalOfDecimal(n / 10);
      DigitValueOfDigitChar(n % 10);
    }
  }

  /** Python's `'%02d' % n`: at least two characters, the sign first and
      zeros after it. */
  function ZeroPad2(n: int): string {
    if 0 <= n < 10 then "0" + Decimal(n)
    else if n < 0 then "-" + Decimal(-n)
    else Decimal(n)
  }

  /** `'E%02d' % n` */
  function EpisodeSuffix(n: int): string {
    "E" + ZeroPad2(n)
  }

  /** Reads an optionally signed decimal number. */
  function ParseSigned(s: string): int
    requires |s| >= 1
    requires s[0] == '-' || IsDigit(s[0])
    requires forall i :: 1 <= i < |s| ==> IsDigit(s[i])
  {
    if s[0] == '-' then 0 - ParseDecimal(s[1..]) as int else ParseDecimal(s)
  }

  /** The suffix is `E` followed by at least two characters, exactly two for
      episodes 0 to 99, and it can be read back as the episode number. */
  lemma EpisodeSuffixRoundTrip(n: int)
    ensures var sfx := EpisodeSuffix(n);
      && |sfx| >= 3 && sfx[0] == 'E'
      && (0 <= n < 100 ==> |sfx| == 3)
      && (sfx[1] == '-' || IsDigit(sfx[1]))
      && (forall i :: 2 <= i < |sfx| ==> IsDigit(sfx[i]))
      && ParseSigned(sfx[1..]) == n
  {
    var sfx := EpisodeSuffix(n);
    if 0 <= n < 10 {
      var d := Decimal(n);
      assert sfx[1..] == "0" + d;
      ParseDecimalOfDecimal(n);
      assert ("0" + d)[..|"0" + d| - 1] == "0";
      assert ParseDecimal("0") == 0 by {
        assert "0"[..0] == [];
      }
    } else if n < 0 {
      assert sfx[1..] == "-" + Decimal(-n);
      assert sfx[1..][1..] == Decimal(-n);
      ParseDecimalOfDecimal(-n);
    } else {
      assert sfx[1..] == Decimal(n);
      ParseDecimalOfDecimal(n);
      if n < 100 {
        assert Decimal(n / 10) == [DigitChar(n / 10)];
      }
    }
  }

  // ---------------------------------------------------------------------
  // Episode titles
  // ---------------------------------------------------------------------

  /** What `title` may return: nothing, one title, or the full list. */
  datatype TitleAnswer = NoTitle | Single(title: string) | Several(titles: seq<string>)

  /** `library.get('related_libraries', {}).get('season', [])` */
  function RelatedSeasons(library: map<string, PyValue>): PyValue
    requires Get(library, "related_libraries", Dict(map[])).Dict?
  {
    Get(Get(library, "related_libraries", Dict(map[])).entries, "season", List([]))
  }

  /** What `title` reads of an episode without raising: the related
      libraries, when present, form a dictionary; a truthy season entry can be
      indexed (a list or a string); and the episode carries the information
      `identifier` reads. Anything that is not an episode is accepted. */
  predicate TitleReadable(library: map<string, PyValue>) {
    IsEpisode(library) ==>
      && Get(library, "related_libraries", Dict(map[])).Dict?
      && (Truthy(RelatedSeasons(library)) ==>
            (RelatedSeasons(library).List? || RelatedSeasons(library).Str?) && HasSceneInfo(library))
  }

  /** The episode number `title` appends, when it appends one: only with
      `include_identifier` and a truthy (non-zero) episode number. */
  function SuffixNumber(h: Helpers, library: map<string, PyValue>, includeIdentifier: bool): Option<int>
    requires IsEpisode(library) && HasSceneInfo(library)
  {
    var id := Identifier(h, library).value;
    if includeIdentifier && id.episode.Some? && id.episode.value != 0 then id.episode else None
  }

  /** `title` does not raise: an absent season answer (None) is only
      iterated when a suffix is to be appended. */
  predicate CanTitle(h: Helpers, library: map<string, PyValue>, seasonTitles: Option<seq<string>>, includeIdentifier: bool) {
    && TitleReadable(library)
    && (IsEpisode(library) && Truthy(RelatedSeasons(library)) && seasonTitles.None? ==>
          SuffixNumber(h, library, includeIdentifier).None?)
  }

  /** Appends the same suffix to every title, keeping their number and order. */
  function AppendToEach(titles: seq<string>, suffix: string): (r: seq<string>) {
    seq(|titles|, i requires 0 <= i < |titles| => titles[i] + suffix)
  }

  /** `EpisodeLibraryPlugin.title`. `seasonTitles` is the answer of the first
      related season to the same event (asked for all its titles), None when
      it answers nothing; the `condense` flag only reaches that nested call,
      so it is part of that input. */
  function Title(h: Helpers, library: map<string, PyValue>, seasonTitles: Option<seq<string>>,
                 first: bool := true, includeIdentifier: bool := true): (r: TitleAnswer)
    requires CanTitle(h, library, seasonTitles, includeIdentifier)
    ensures !IsEpisode(library) ==> r == NoTitle
    ensures IsEpisode(library) && !Truthy(RelatedSeasons(library)) ==> r == NoTitle
    ensures seasonTitles.None? ==> r == NoTitle
    ensures first ==> !r.Several?
    ensures !first && r != NoTitle ==> r.Several? && |r.titles| == |seasonTitles.value|
  {
    if !IsEpisode(library) then NoTitle
    else if !Truthy(RelatedSeasons(library)) then NoTitle
    else
      match seasonTitles
      case None => NoTitle
      case Some(seasonTitles) =>
        var titles :=
          match SuffixNumber(h, library, includeIdentifier)
          case Some(n) => AppendToEach(seasonTitles, EpisodeSuffix(n))
          case None => seasonTitles;
        if first then (if titles == [] then NoTitle else Single(titles[0]))
        else Several(titles)
  }

  /** For an episode with a non-zero episode number every season title gets
      the episode suffix, in order; the first title is the head of that list,
      and an empty list gives nothing. */
  lemma TitleWithEpisodeNumber(h: Helpers, library: map<string, PyValue>, seasonTitles: seq<string>, n: int)
    requires TitleReadable(library)
    requires IsEpisode(library) && Truthy(RelatedSeasons(library))
    requires Identifier(h, library).value.episode == Some(n) && n != 0
    ensures CanTitle(h, library, Some(seasonTitles), true)
    ensures var all := Title(h, library, Some(seasonTitles), false, true);
      && all.Several? && |all.titles| == |seasonTitles|
      && (forall i :: 0 <= i < |seasonTitles| ==>
            all.titles[i][..|seasonTitles[i]|] == seasonTitles[i] &&
            all.titles[i][|seasonTitles[i]|..] == EpisodeSuffix(n))
    ensures Title(h, library, Some(seasonTitles), true, true) ==
      if seasonTitles == [] then NoTitle else Single(seasonTitles[0] + EpisodeSuffix(n))
  {
    var all := Title(h, library, Some(seasonTitles), false, true);
    forall i | 0 <= i < |seasonTitles|
      ensures all.titles[i][..|seasonTitles[i]|] == seasonTitles[i]
      ensures all.titles[i][|seasonTitles[i]|..] == EpisodeSuffix(n)
    {
      assert all.titles[i] == seasonTitles[i] + EpisodeSuffix(n);
    }
  }

  /** Episode 0, a missing episode number, or `include_identifier` off leave
      the season titles as they are; an absent season answer then gives
      nothing. */
  lemma TitleWithoutSuffix(h: Helpers, library: map<string, PyValue>, seasonTitles: Option<seq<string>>, includeIdentifier: bool)
    requires TitleReadable(library)
    requires IsEpisode(library) && Truthy(RelatedSeasons(library))
    requires var ep := Identifier(h, library).value.episode;
      !includeIdentifier || ep == None || ep == Some(0)
    ensures CanTitle(h, library, seasonTitles, includeIdentifier)
    ensures Title(h, library, seasonTitles, false, includeIdentifier) ==
      if seasonTitles.None? then NoTitle else Several(seasonTitles.value)
    ensures Title(h, library, seasonTitles, true, includeIdentifier) ==
      if seasonTitles.None? || seasonTitles.value == [] then NoTitle else Single(seasonTitles.value[0])
  {
  }

  // ---------------------------------------------------------------------
  // Title normalisation
  // ---------------------------------------------------------------------

  /** `string.ascii_letters` */
  predicate IsAsciiLetter(c: char) {
    ('a' <= c <= 'z') || ('A' <= c <= 'Z')
  }

  /** `prefix == s[:len(prefix)]` */
  predicate StartsWith(s: string, prefix: string) {
    |prefix| <= |s| && s[..|prefix|] == prefix
  }

  /** The prefixes `simplifyTitle` strips, tried in order, at most one of them. */
  const Articles: seq<string> := ["the "]

  /** Removes the first prefix of the list that `s` starts with, if any. */
  function StripFirstPrefix(s: string, prefixes: seq<string>): string {
    if prefixes == [] then s
    else if StartsWith(s, prefixes[0]) then s[|prefixes[0]|..]
    else StripFirstPrefix(s, prefixes[1..])
  }

  /** One leading "the " is removed... */
  lemma StripArticleRemovesOnce(rest: string)
    ensures StripFirstPrefix("the " + rest, Articles) == rest
  {
    assert ("the " + rest)[..4] == "the ";
  }

  /** ...and a string that does not start with it is left unchanged. */
  lemma StripArticleKeepsOthers(s: string)
    requires !StartsWith(s, "the ")
    ensures StripFirstPrefix(s, Articles) == s
  {
    assert Articles[1..] == [];
  }

  /** The prefix loop of `simplifyTitle`: the first matching prefix is
      removed and the loop stops. */
  method StripPrefixes(s: string, prefixes: seq<string>) returns (r: string)
    ensures r == StripFirstPrefix(s, prefixes)
  {
    r := s;
    var i := 0;
    while i < |prefixes|
      invariant 0 <= i <= |prefixes|
      invariant r == s
      invariant StripFirstPrefix(s, prefixes) == StripFirstPrefix(s, prefixes[i..])
    {
      var prefix := prefixes[i];
      if StartsWith(r, prefix) {
        r := r[|prefix|..];
        assert prefixes[i..][0] == prefix;
        return;
      }
      assert prefixes[i..][1..] == prefixes[i + 1..];
      i := i + 1;
    }
    assert prefixes[i..] == [];
  }

  /** `simplifyTitle`: a `#` marker when the title does not start with an
      ASCII letter, followed by the simplified title without one leading
      "the ". */
  function SimplifyTitle(h: Helpers, title: string): (r: string)
    requires |title| > 0
    ensures IsAsciiLetter(title[0]) ==> r == StripFirstPrefix(h.simplify(title), Articles)
    ensures !IsAsciiLetter(title[0]) ==>
      |r| >= 1 && r[0] == '#' && r[1..] == StripFirstPrefix(h.simplify(title), Articles)
  {
    (if IsAsciiLetter(title[0]) then "" else "#") + StripFirstPrefix(h.simplify(title), Articles)
  }

  /** `simplifyTitle` as the source computes it, with its prefix loop. */
  method ComputeSimpleTitle(h: Helpers, title: string) returns (r: string)
    requires |title| > 0
    ensures r == SimplifyTitle(h, title)
  {
    var marker := if IsAsciiLetter(title[0]) then "" else "#";
    var simple := StripPrefixes(h.simplify(title), Articles);
    r := marker + simple;
  }
}
