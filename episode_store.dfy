/** The stateful side of the episode library plugin: the episode rows it
    creates (`add`) and refreshes from the metadata provider (`update`).
    The database is a list of plain records held by one store object; the
    provider, the file download and registration, and the clock are inputs. */
module EpisodeStore {
  import opened Wrappers
  import opened PyValues
  import opened EpisodeNaming

  // ---------------------------------------------------------------------
  // Records
  // ---------------------------------------------------------------------

  /** The two statuses the plugin looks up. */
  datatype Status = NeedsUpdate | Done

  /** One display title of an episode. */
  datatype LibraryTitle = LibraryTitle(title: string, simpleTitle: string, isDefault: bool)

  /** A season row, as far as `add` looks parents up. */
  datatype Season = Season(identifier: PyValue, primaryProvider: PyValue)

  /** The id of a registered file. */
  type FileId = nat

  /** One episode row. */
  datatype Episode = Episode(
    kind: PyValue,
    primaryProvider: PyValue,
    year: PyValue,
    identifier: PyValue,
    plot: string,
    tagline: string,
    status: Status,
    info: map<string, PyValue>,
    parent: Option<Season>,
    seasonNumber: Option<int>,
    episodeNumber: Option<int>,
    absoluteNumber: Option<int>,
    lastUpdated: Option<int>,
    titles: seq<LibraryTitle>,
    files: seq<FileId>)

  /** What the provider is asked for. */
  datatype EpisodeParams = EpisodeParams(
    seasonIdentifier: PyValue, episodeIdentifier: PyValue,
    episode: Option<int>, absolute: Option<int>)

  /** The answers of everything outside the plugin that `update` consults. */
  datatype Collaborators = Collaborators(
    // `episode.info` with merged results
    episodeInfo: EpisodeParams -> map<string, PyValue>,
    // `file.download`: the local path, or a false value on failure
    download: string -> PyValue,
    // `file.add` followed by reloading the file by its id: the file, or None
    // when registration or reloading fails
    attach: PyValue -> Option<FileId>,
    // `int(time.time())`
    now: int,
    // the host's shutdown flag
    shuttingDown: bool)

  /** What `update` returns: None while shutting down, False without
      provider information, otherwise the row's representation. */
  datatype UpdateOutcome = Skipped | Failed | Returned(library: Episode)

  // ---------------------------------------------------------------------
  // Queries
  // ---------------------------------------------------------------------

  /** `query(...).filter_by(...).first()`: the index of the first element
      satisfying the filter. */
  function FirstIndex<T>(s: seq<T>, p: T -> bool): (r: Option<nat>)
    ensures r.Some? ==> r.value < |s| && p(s[r.value])
    ensures r.Some? ==> forall j :: 0 <= j < r.value ==> !p(s[j])
    ensures r.None? ==> forall j :: 0 <= j < |s| ==> !p(s[j])
  {
    if s == [] then None
    else if p(s[0]) then Some(0)
    else match FirstIndex(s[1..], p)
      case None => None
      case Some(i) => Some(i + 1)
  }

  /** The filter of `add`: same type and identifier. */
  function HasKey(kind: PyValue, identifier: PyValue): Episode -> bool {
    (e: Episode) => e.kind == kind && e.identifier == identifier
  }

  /** The filter of `update`: same identifier, whatever the type. */
  function HasIdentifier(identifier: PyValue): Episode -> bool {
    (e: Episode) => e.identifier == identifier
  }

  /** The filter of the parent lookup. */
  function IsSeason(provider: PyValue, identifier: PyValue): Season -> bool {
    (s: Season) => s.primaryProvider == provider && s.identifier == identifier
  }

  /** The store's invariant: type and identifier select at most one row. */
  ghost predicate UniqueKeys(rows: seq<Episode>) {
    forall i, j :: 0 <= i < j < |rows| ==>
      rows[i].kind != rows[j].kind || rows[i].identifier != rows[j].identifier
  }

  // ---------------------------------------------------------------------
  // add
  // ---------------------------------------------------------------------

  function AttrKind(attrs: map<string, PyValue>): PyValue {
    Get(attrs, "type", Str("episode"))
  }

  function AttrProvider(attrs: map<string, PyValue>): PyValue {
    Get(attrs, "primary_provider", Str("thetvdb"))
  }

  function AttrIdentifier(attrs: map<string, PyValue>): PyValue {
    Get(attrs, "identifier", NoneValue)
  }

  /** The initial title of a new row: `toUnicode(attrs.get('title'))`. */
  function AttrTitle(h: Helpers, attrs: map<string, PyValue>): string {
    ToUnicode(h, Get(attrs, "title", NoneValue))
  }

  /** The title `add` hands to the refresh: `toUnicode(attrs.get('title', ''))`. */
  function DefaultTitle(h: Helpers, attrs: map<string, PyValue>): string {
    ToUnicode(h, Get(attrs, "title", Str("")))
  }

  /** A new row can be built when its initial title is not empty
      (`simplifyTitle` reads its first character). */
  predicate CanCreate(h: Helpers, attrs: map<string, PyValue>) {
    |AttrTitle(h, attrs)| > 0
  }

  /** The parent season, looked up only when a parent identifier is given. */
  function ParentOf(seasons: seq<Season>, attrs: map<string, PyValue>): Option<Season> {
    var parentIdentifier := Get(attrs, "parent_identifier", NoneValue);
    if !Truthy(parentIdentifier) then None
    else match FirstIndex(seasons, IsSeason(AttrProvider(attrs), parentIdentifier))
      case None => None
      case Some(i) => Some(seasons[i])
  }

  /** The row `add` creates when none matches. The title's default flag is
      not set by `add`; it is taken as false. */
  function NewEpisode(h: Helpers, seasons: seq<Season>, attrs: map<string, PyValue>): Episode
    requires CanCreate(h, attrs)
  {
    var title := AttrTitle(h, attrs);
    Episode(
      AttrKind(attrs), AttrProvider(attrs),
      Get(attrs, "year", NoneValue), AttrIdentifier(attrs),
      ToUnicode(h, Get(attrs, "plot", NoneValue)),
      ToUnicode(h, Get(attrs, "tagline", NoneValue)),
      NeedsUpdate, map[], ParentOf(seasons, attrs),
      TryInt(h, Get(attrs, "seasonnumber", NoneValue), h.tryIntDefault),
      TryInt(h, Get(attrs, "episodenumber", NoneValue), h.tryIntDefault),
      TryInt(h, Get(attrs, "absolute_number", NoneValue), h.tryIntDefault),
      None,
      [LibraryTitle(title, SimplifyTitle(h, title), false)],
      [])
  }

  function ExistingRow(rows: seq<Episode>, attrs: map<string, PyValue>): Option<nat> {
    FirstIndex(rows, HasKey(AttrKind(attrs), AttrIdentifier(attrs)))
  }

  /** The create-if-absent step of `add`: the rows afterwards and the index
      of the row `add` works with. */
  function CreateStep(h: Helpers, rows: seq<Episode>, seasons: seq<Season>, attrs: map<string, PyValue>): (seq<Episode>, nat)
    requires ExistingRow(rows, attrs).None? ==> CanCreate(h, attrs)
  {
    match ExistingRow(rows, attrs)
    case Some(i) => (rows, i)
    case None => (rows + [NewEpisode(h, seasons, attrs)], |rows|)
  }

  /** `update_after is not False`: only the value False suppresses the refresh. */
  predicate Triggers(updateAfter: PyValue) {
    updateAfter != Bool(false)
  }

  /** A row with the same type and identifier is reused as it is. */
  lemma AddReusesExistingRow(h: Helpers, rows: seq<Episode>, seasons: seq<Season>, attrs: map<string, PyValue>, i: nat)
    requires i < |rows| && rows[i].kind == AttrKind(attrs) && rows[i].identifier == AttrIdentifier(attrs)
    ensures var (after, k) := CreateStep(h, rows, seasons, attrs);
      after == rows && k <= i && rows[k].kind == AttrKind(attrs) && rows[k].identifier == AttrIdentifier(attrs)
  {
    assert HasKey(AttrKind(attrs), AttrIdentifier(attrs))(rows[i]);
  }

  /** Without a matching row exactly one row is appended: it needs an
      update, has empty info, the default type and provider when none is
      given, and exactly one title. */
  lemma AddCreatesOneRow(h: Helpers, rows: seq<Episode>, seasons: seq<Season>, attrs: map<string, PyValue>)
    requires forall i :: 0 <= i < |rows| ==>
      rows[i].kind != AttrKind(attrs) || rows[i].identifier != AttrIdentifier(attrs)
    requires CanCreate(h, attrs)
    ensures var (after, k) := CreateStep(h, rows, seasons, attrs);
      && |after| == |rows| + 1 && after[..|rows|] == rows && k == |rows|
      && after[k].status == NeedsUpdate && after[k].info == map[]
      && after[k].identifier == AttrIdentifier(attrs)
      && ("type" !in attrs ==> after[k].kind == Str("episode"))
      && ("primary_provider" !in attrs ==> after[k].primaryProvider == Str("thetvdb"))
      && |after[k].titles| == 1 && after[k].titles[0].title == AttrTitle(h, attrs)
      && after[k].files == [] && after[k].lastUpdated == None
  {
    assert forall i :: 0 <= i < |rows| ==> !HasKey(AttrKind(attrs), AttrIdentifier(attrs))(rows[i]);
    var after := CreateStep(h, rows, seasons, attrs).0;
    assert after[..|rows|] == rows;
  }

  /** Creating twice with the same attributes creates once. */
  lemma {:induction false} AddIsIdempotent(h: Helpers, rows: seq<Episode>, seasons: seq<Season>, attrs: map<string, PyValue>)
    requires ExistingRow(rows, attrs).None? ==> CanCreate(h, attrs)
    ensures var (once, k) := CreateStep(h, rows, seasons, attrs);
      CreateStep(h, once, seasons, attrs) == (once, k)
  {
    var (once, k) := CreateStep(h, rows, seasons, attrs);
    var key := HasKey(AttrKind(attrs), AttrIdentifier(attrs));
    if ExistingRow(rows, attrs).None? {
      assert once[k] == NewEpisode(h, seasons, attrs);
      assert key(once[k]);
      assert forall j :: 0 <= j < k ==> once[j] == rows[j] && !key(once[j]);
    }
  }

  /** Creating keeps type and identifier unique. */
  lemma AddKeepsKeysUnique(h: Helpers, rows: seq<Episode>, seasons: seq<Season>, attrs: map<string, PyValue>)
    requires UniqueKeys(rows)
    requires ExistingRow(rows, attrs).None? ==> CanCreate(h, attrs)
    ensures UniqueKeys(CreateStep(h, rows, seasons, attrs).0)
  {
    if ExistingRow(rows, attrs).None? {
      var after := CreateStep(h, rows, seasons, attrs).0;
      forall i, j | 0 <= i < j < |after|
        ensures after[i].kind != after[j].kind || after[i].identifier != after[j].identifier
      {
        if j == |rows| {
          assert !HasKey(AttrKind(attrs), AttrIdentifier(attrs))(rows[i]);
        }
      }
    }
  }

  // ---------------------------------------------------------------------
  // update: provider information
  // ---------------------------------------------------------------------

  /** The provider's answer without the keys the plugin does not keep. */
  function CleanInfo(info: map<string, PyValue>): (r: map<string, PyValue>)
    ensures "in_wanted" !in r && "in_library" !in r
    ensures forall k :: k in info && k != "in_wanted" && k != "in_library" ==> k in r && r[k] == info[k]
    ensures forall k :: k in r ==> k in info
  {
    info - {"in_wanted", "in_library"}
  }

  function ParamsOf(row: Episode, identifier: PyValue): EpisodeParams {
    EpisodeParams(
      if row.parent.Some? then row.parent.value.identifier else NoneValue,
      identifier, row.episodeNumber, row.absoluteNumber)
  }

  /** The provider information `update` works with. */
  function ProviderInfo(c: Collaborators, row: Episode, identifier: PyValue): map<string, PyValue> {
    CleanInfo(c.episodeInfo(ParamsOf(row, identifier)))
  }

  /** Provider titles can be iterated (absent means none) and every truthy
      entry reads as non-empty text (`simplifyTitle` reads its first
      character). */
  predicate TitlesReadable(h: Helpers, info: map<string, PyValue>) {
    && IsSequence(Get(info, "titles", List([])))
    && UsableTitles(h, Elements(Get(info, "titles", List([]))))
  }

  /** The provider titles as the title loop visits them. */
  function ProviderTitles(h: Helpers, info: map<string, PyValue>): seq<PyValue>
    requires TitlesReadable(h, info)
  {
    Elements(Get(info, "titles", List([])))
  }

  /** `images` is a dictionary (its default, a list, has no `get`) whose
      poster entry, when present, can be iterated. */
  predicate PostersReadable(info: map<string, PyValue>) {
    && "images" in info && info["images"].Dict?
    && IsSequence(Get(info["images"].entries, "poster", List([])))
  }

  /** The poster entries as the poster loop visits them. */
  function Posters(info: map<string, PyValue>): seq<PyValue>
    requires PostersReadable(info)
  {
    Elements(Get(info["images"].entries, "poster", List([])))
  }

  predicate RefreshReadable(h: Helpers, info: map<string, PyValue>) {
    TitlesReadable(h, info) && PostersReadable(info)
  }

  // ---------------------------------------------------------------------
  // update: title rebuild
  // ---------------------------------------------------------------------

  /** Every truthy provider title reads as non-empty text. */
  predicate UsableTitles(h: Helpers, raw: seq<PyValue>) {
    forall i :: 0 <= i < |raw| && Truthy(raw[i]) ==> |ToUnicode(h, raw[i])| > 0
  }

  /** The provider titles that are stored: the truthy ones, as text, in order. */
  function KeptTitles(h: Helpers, raw: seq<PyValue>): (r: seq<string>)
    requires UsableTitles(h, raw)
    ensures |r| <= |raw|
    ensures forall j :: 0 <= j < |r| ==> |r[j]| > 0
  {
    if raw == [] then []
    else
      var last := raw[|raw| - 1];
      KeptTitles(h, raw[..|raw| - 1]) + (if Truthy(last) then [ToUnicode(h, last)] else [])
  }

  /** The default flag of the stored title number `counter`. */
  predicate IsDefaultTitle(h: Helpers, title: string, counter: nat, raw: seq<PyValue>, defaultTitle: string)
    requires |raw| > 0
  {
    || (|defaultTitle| == 0 && counter == 0)
    || |raw| == 1
    || h.lower(title) == h.lower(defaultTitle)
    || (defaultTitle == "" && ToUnicode(h, raw[0]) == title)
  }

  function MakeTitle(h: Helpers, title: string, counter: nat, raw: seq<PyValue>, defaultTitle: string): LibraryTitle
    requires |title| > 0 && |raw| > 0
  {
    LibraryTitle(title, SimplifyTitle(h, title), IsDefaultTitle(h, title, counter, raw, defaultTitle))
  }

  function TitleRows(h: Helpers, kept: seq<string>, raw: seq<PyValue>, defaultTitle: string): seq<LibraryTitle>
    requires forall j :: 0 <= j < |kept| ==> |kept[j]| > 0
    requires kept != [] ==> |raw| > 0
  {
    seq(|kept|, j requires 0 <= j < |kept| => MakeTitle(h, kept[j], j, raw, defaultTitle))
  }

  /** The title list `update` stores in place of the old one. */
  function RebuiltTitles(h: Helpers, raw: seq<PyValue>, defaultTitle: string): seq<LibraryTitle>
    requires UsableTitles(h, raw)
  {
    TitleRows(h, KeptTitles(h, raw), raw, defaultTitle)
  }

  lemma TitleRowsSnoc(h: Helpers, kept: seq<string>, t: string, raw: seq<PyValue>, defaultTitle: string)
    requires forall j :: 0 <= j < |kept| ==> |kept[j]| > 0
    requires |t| > 0 && |raw| > 0
    ensures TitleRows(h, kept + [t], raw, defaultTitle) ==
      TitleRows(h, kept, raw, defaultTitle) + [MakeTitle(h, t, |kept|, raw, defaultTitle)]
  {
  }

  /** The title loop of `update`: one title per truthy provider title, with
      a counter of the titles stored so far. */
  method BuildTitles(h: Helpers, raw: seq<PyValue>, defaultTitle: string) returns (titles: seq<LibraryTitle>)
    requires UsableTitles(h, raw)
    ensures titles == RebuiltTitles(h, raw, defaultTitle)
  {
    titles := [];
    var counter := 0;
    var i := 0;
    while i < |raw|
      invariant 0 <= i <= |raw|
      invariant UsableTitles(h, raw[..i])
      invariant counter == |KeptTitles(h, raw[..i])|
      invariant titles == TitleRows(h, KeptTitles(h, raw[..i]), raw, defaultTitle)
    {
      assert raw[..i + 1][..i] == raw[..i];
      var title := raw[i];
      if Truthy(title) {
        var text := ToUnicode(h, title);
        var simple := ComputeSimpleTitle(h, text);
        var isDefault := (|defaultTitle| == 0 && counter == 0) || |raw| == 1
          || h.lower(text) == h.lower(defaultTitle)
          || (defaultTitle == "" && ToUnicode(h, raw[0]) == text);
        TitleRowsSnoc(h, KeptTitles(h, raw[..i]), text, raw, defaultTitle);
        titles := titles + [LibraryTitle(text, simple, isDefault)];
        counter := counter + 1;
      }
      i := i + 1;
    }
    assert raw[..i] == raw;
  }

  /** Stored titles split over a concatenation of provider lists. */
  lemma {:induction false} KeptTitlesAppend(h: Helpers, a: seq<PyValue>, b: seq<PyValue>)
    requires UsableTitles(h, a + b)
    ensures UsableTitles(h, a) && UsableTitles(h, b)
    ensures KeptTitles(h, a + b) == KeptTitles(h, a) + KeptTitles(h, b)
    decreases |b|
  {
    assert forall i :: 0 <= i < |a| ==> (a + b)[i] == a[i];
    assert forall i :: 0 <= i < |b| ==> (a + b)[|a| + i] == b[i];
    if b == [] {
      assert a + b == a;
    } else {
      var b' := b[..|b| - 1];
      assert (a + b)[..|a + b| - 1] == a + b';
      assert (a + b)[|a + b| - 1] == b[|b| - 1];
      assert UsableTitles(h, a + b') by {
        assert forall i :: 0 <= i < |a + b'| ==> (a + b')[i] == (a + b)[i];
      }
      KeptTitlesAppend(h, a, b');
    }
  }

  /** Provider titles that are false (None, empty) are skipped, and only they. */
  lemma FalseTitlesAreSkipped(h: Helpers, a: seq<PyValue>, v: PyValue, b: seq<PyValue>)
    requires UsableTitles(h, a + [v] + b)
    ensures UsableTitles(h, a) && UsableTitles(h, b) && UsableTitles(h, a + b)
    ensures KeptTitles(h, a + [v] + b) ==
      KeptTitles(h, a) + (if Truthy(v) then [ToUnicode(h, v)] else []) + KeptTitles(h, b)
  {
    KeptTitlesAppend(h, a + [v], b);
    assert (a + [v])[..|a + [v]| - 1] == a;
    assert UsableTitles(h, a + b) by {
      forall i | 0 <= i < |a + b| && Truthy((a + b)[i]) ensures |ToUnicode(h, (a + b)[i])| > 0 {
        if i < |a| { assert (a + b)[i] == (a + [v] + b)[i]; }
        else { assert (a + b)[i] == (a + [v] + b)[i + 1]; }
      }
    }
  }

  /** Non-empty text titles are all stored, in the provider's order. */
  lemma {:induction false} KeptTitlesOfTexts(h: Helpers, texts: seq<string>)
    requires forall i :: 0 <= i < |texts| ==> |texts[i]| > 0
    ensures var raw := seq(|texts|, i requires 0 <= i < |texts| => Str(texts[i]));
      UsableTitles(h, raw) && KeptTitles(h, raw) == texts
  {
    var raw := seq(|texts|, i requires 0 <= i < |texts| => Str(texts[i]));
    if texts != [] {
      var init := texts[..|texts| - 1];
      KeptTitlesOfTexts(h, init);
      assert raw[..|raw| - 1] == seq(|init|, i requires 0 <= i < |init| => Str(init[i]));
      assert texts == init + [texts[|texts| - 1]];
    }
  }

  /** A provider `titles` value that is a string is walked one character at
      a time, each character becoming a title of its own. */
  lemma {:induction false} TitleStringIsWalkedByCharacter(h: Helpers, s: string)
    ensures UsableTitles(h, Elements(Str(s)))
    ensures KeptTitles(h, Elements(Str(s))) == seq(|s|, i requires 0 <= i < |s| => [s[i]])
  {
    var texts := seq(|s|, i requires 0 <= i < |s| => [s[i]]);
    KeptTitlesOfTexts(h, texts);
    assert Elements(Str(s)) == seq(|texts|, i requires 0 <= i < |texts| => Str(texts[i]));
  }

  /** Without a requested default the first stored title is a default. */
  lemma FirstTitleIsDefaultWithoutPreference(h: Helpers, raw: seq<PyValue>)
    requires UsableTitles(h, raw)
    requires KeptTitles(h, raw) != []
    ensures RebuiltTitles(h, raw, "")[0].isDefault
  {
  }

  /** A single provider title is always the default. */
  lemma SingleProviderTitleIsDefault(h: Helpers, raw: seq<PyValue>, defaultTitle: string)
    requires UsableTitles(h, raw) && |raw| == 1
    ensures forall j :: 0 <= j < |RebuiltTitles(h, raw, defaultTitle)| ==>
      RebuiltTitles(h, raw, defaultTitle)[j].isDefault
  {
  }

  /** With a requested default and several provider titles, exactly the
      titles matching it case-insensitively are defaults: possibly none,
      possibly several. */
  lemma RequestedDefaultDecides(h: Helpers, raw: seq<PyValue>, defaultTitle: string)
    requires UsableTitles(h, raw) && |raw| != 1 && defaultTitle != ""
    ensures var titles := RebuiltTitles(h, raw, defaultTitle);
      forall j :: 0 <= j < |titles| ==>
        (titles[j].isDefault <==> h.lower(titles[j].title) == h.lower(defaultTitle))
  {
  }

  /** Without a requested default and with several provider titles, a
      title is a default exactly when it is the first stored one, when it
      equals the first provider title, or when it lower-cases like the empty
      string. */
  lemma EmptyDefaultDecides(h: Helpers, raw: seq<PyValue>)
    requires UsableTitles(h, raw) && |raw| != 1
    ensures var titles := RebuiltTitles(h, raw, "");
      forall j :: 0 <= j < |titles| ==>
        (titles[j].isDefault <==>
           j == 0 || h.lower(titles[j].title) == h.lower("") || titles[j].title == ToUnicode(h, raw[0]))
  {
  }

  /** The two titles "Foo" and "Bar" without a requested default: only "Foo"
      is a default. */
  lemma TwoTitlesWithoutPreference(h: Helpers)
    requires h.lower("Bar") != h.lower("")
    ensures var titles := RebuiltTitles(h, [Str("Foo"), Str("Bar")], "");
      |titles| == 2 && titles[0].title == "Foo" && titles[1].title == "Bar"
      && titles[0].isDefault && !titles[1].isDefault
  {
    var raw := [Str("Foo"), Str("Bar")];
    assert raw[..1] == [Str("Foo")] && raw[..1][..0] == [];
    assert KeptTitles(h, raw) == ["Foo", "Bar"];
  }

  /** Repeating the first provider title without a requested default makes
      both copies defaults. */
  lemma RepeatedFirstTitleGivesTwoDefaults(h: Helpers)
    ensures var titles := RebuiltTitles(h, [Str("Foo"), Str("Foo")], "");
      |titles| == 2 && titles[0].isDefault && titles[1].isDefault
  {
    var raw := [Str("Foo"), Str("Foo")];
    assert raw[..1] == [Str("Foo")] && raw[..1][..0] == [];
    assert KeptTitles(h, raw) == ["Foo", "Foo"];
  }

  // ---------------------------------------------------------------------
  // update: poster
  // ---------------------------------------------------------------------

  /** One image of the poster list: strings are downloaded and, when a path
      comes back, registered and attached; anything else is skipped. */
  function AttachOutcome(c: Collaborators, image: PyValue): (r: Option<FileId>)
    ensures !image.Str? ==> r == None
  {
    if !image.Str? then None
    else
      var path := c.download(image.s);
      if Truthy(path) then c.attach(path) else None
  }

  /** The file the poster loop attaches: the first image that succeeds. */
  function FirstAttached(c: Collaborators, images: seq<PyValue>): Option<FileId> {
    if images == [] then None
    else
      var here := AttachOutcome(c, images[0]);
      if here.Some? then here else FirstAttached(c, images[1..])
  }

  /** The poster loop attaches nothing exactly when every image fails, and
      otherwise the file of the first image that succeeds. */
  lemma {:induction false} FirstAttachedIsFirstSuccess(c: Collaborators, images: seq<PyValue>)
    ensures FirstAttached(c, images).None? <==>
      forall i :: 0 <= i < |images| ==> AttachOutcome(c, images[i]).None?
    ensures FirstAttached(c, images).Some? ==>
      exists k :: 0 <= k < |images| && AttachOutcome(c, images[k]) == FirstAttached(c, images)
        && forall j :: 0 <= j < k ==> AttachOutcome(c, images[j]).None?
  {
    if images != [] && AttachOutcome(c, images[0]).None? {
      var rest := images[1..];
      FirstAttachedIsFirstSuccess(c, rest);
      assert forall i :: 1 <= i < |images| ==> images[i] == rest[i - 1];
      if FirstAttached(c, rest).Some? {
        var k :| 0 <= k < |rest| && AttachOutcome(c, rest[k]) == FirstAttached(c, rest)
          && forall j :: 0 <= j < k ==> AttachOutcome(c, rest[j]).None?;
        assert AttachOutcome(c, images[k + 1]) == FirstAttached(c, images);
      }
    } else if images != [] {
      assert AttachOutcome(c, images[0]) == FirstAttached(c, images);
    }
  }

  /** The poster loop of `update`: stops after the first attached file. */
  method AttachFirstPoster(c: Collaborators, images: seq<PyValue>) returns (file: Option<FileId>)
    ensures file == FirstAttached(c, images)
  {
    file := None;
    var i := 0;
    while i < |images|
      invariant 0 <= i <= |images|
      invariant FirstAttached(c, images) == FirstAttached(c, images[i..])
    {
      var image := images[i];
      assert images[i..][0] == image && images[i..][1..] == images[i + 1..];
      if image.Str? {
        var path := c.download(image.s);
        if Truthy(path) {
          var attached := c.attach(path);
          if attached.Some? {
            file := attached;
            return;
          }
        }
      }
      i := i + 1;
    }
  }

  // ---------------------------------------------------------------------
  // update
  // ---------------------------------------------------------------------

  /** `int(info.get('lastupdated'))`, or the clock when that raises. */
  function LastUpdated(h: Helpers, c: Collaborators, info: map<string, PyValue>): int {
    match h.intOf(Get(info, "lastupdated", NoneValue))
    case Some(n) => n
    case None => c.now
  }

  function PosterFiles(c: Collaborators, info: map<string, PyValue>): seq<FileId>
    requires PostersReadable(info)
  {
    match FirstAttached(c, Posters(info))
    case Some(f) => [f]
    case None => []
  }

  /** The row after a refresh with (non-empty) provider information. */
  function RefreshedRow(h: Helpers, c: Collaborators, row: Episode, info: map<string, PyValue>, defaultTitle: string): Episode
    requires RefreshReadable(h, info)
  {
    row.(
      plot := ToUnicode(h, Get(info, "plot", Str(""))),
      tagline := ToUnicode(h, Get(info, "tagline", Str(""))),
      year := Get(info, "year", Int(0)),
      status := Done,
      seasonNumber := TryInt(h, Get(info, "seasonnumber", NoneValue), h.tryIntDefault),
      episodeNumber := TryInt(h, Get(info, "episodenumber", NoneValue), h.tryIntDefault),
      absoluteNumber := TryInt(h, Get(info, "absolute_number", NoneValue), h.tryIntDefault),
      lastUpdated := Some(LastUpdated(h, c, info)),
      info := row.info + info,
      titles := RebuiltTitles(h, ProviderTitles(h, info), defaultTitle),
      files := row.files + PosterFiles(c, info))
  }

  /** The refresh part of `update`, as the source performs it on the row:
      the main fields, then the title list, then the poster. */
  method RefreshRow(h: Helpers, c: Collaborators, row: Episode, info: map<string, PyValue>, defaultTitle: string)
    returns (library: Episode)
    requires RefreshReadable(h, info)
    ensures library == RefreshedRow(h, c, row, info, defaultTitle)
  {
    // main info
    var lastUpdated := LastUpdated(h, c, info);
    library := row.(
      plot := ToUnicode(h, Get(info, "plot", Str(""))),
      tagline := ToUnicode(h, Get(info, "tagline", Str(""))),
      year := Get(info, "year", Int(0)),
      status := Done,
      seasonNumber := TryInt(h, Get(info, "seasonnumber", NoneValue), h.tryIntDefault),
      episodeNumber := TryInt(h, Get(info, "episodenumber", NoneValue), h.tryIntDefault),
      absoluteNumber := TryInt(h, Get(info, "absolute_number", NoneValue), h.tryIntDefault),
      lastUpdated := Some(lastUpdated),
      info := row.info + info);

    // titles: delete all, then add one per provider title
    library := library.(titles := []);
    var raw := ProviderTitles(h, info);
    var titles := BuildTitles(h, raw, defaultTitle);
    library := library.(titles := titles);

    // files: the first poster that can be attached
    var poster := AttachFirstPoster(c, Posters(info));
    if poster.Some? {
      library := library.(files := library.files + [poster.value]);
    }
  }

  /** A row already done is only refreshed when forced. */
  predicate SkipsRefresh(row: Episode, force: bool) {
    row.status == Done && !force
  }

  /** What `update` needs in order not to raise: a row with the identifier,
      and readable titles and images whenever it refreshes. */
  predicate CanUpdate(h: Helpers, c: Collaborators, rows: seq<Episode>, identifier: PyValue, force: bool) {
    !c.shuttingDown ==>
      && FirstIndex(rows, HasIdentifier(identifier)).Some?
      && var row := rows[FirstIndex(rows, HasIdentifier(identifier)).value];
         var info := ProviderInfo(c, row, identifier);
         info != map[] && !SkipsRefresh(row, force) ==> RefreshReadable(h, info)
  }

  /** `update`: the rows afterwards and the value returned. */
  function UpdateStep(h: Helpers, c: Collaborators, rows: seq<Episode>, identifier: PyValue,
                      defaultTitle: string, force: bool): (seq<Episode>, UpdateOutcome)
    requires CanUpdate(h, c, rows, identifier, force)
  {
    if c.shuttingDown then (rows, Skipped)
    else
      var i := FirstIndex(rows, HasIdentifier(identifier)).value;
      var row := rows[i];
      var info := ProviderInfo(c, row, identifier);
      if info == map[] then (rows, Failed)
      else if SkipsRefresh(row, force) then (rows, Returned(row))
      else
        var refreshed := RefreshedRow(h, c, row, info, defaultTitle);
        (rows[i := refreshed], Returned(refreshed))
  }

  /** While shutting down `update` does nothing and returns None. */
  lemma UpdateWhileShuttingDown(h: Helpers, c: Collaborators, rows: seq<Episode>, identifier: PyValue, defaultTitle: string, force: bool)
    requires c.shuttingDown
    ensures UpdateStep(h, c, rows, identifier, defaultTitle, force) == (rows, Skipped)
  {
  }

  /** `update` fails with False exactly when the provider gives nothing but
      bookkeeping keys, and then changes nothing; the provider is asked
      whatever the row's status. */
  lemma UpdateFailsWithoutInfo(h: Helpers, c: Collaborators, rows: seq<Episode>, identifier: PyValue, defaultTitle: string, force: bool)
    requires CanUpdate(h, c, rows, identifier, force) && !c.shuttingDown
    ensures var row := rows[FirstIndex(rows, HasIdentifier(identifier)).value];
      var (after, out) := UpdateStep(h, c, rows, identifier, defaultTitle, force);
      && (out == Failed <==> c.episodeInfo(ParamsOf(row, identifier)).Keys <= {"in_wanted", "in_library"})
      && (out == Failed ==> after == rows)
  {
    var row := rows[FirstIndex(rows, HasIdentifier(identifier)).value];
    var raw := c.episodeInfo(ParamsOf(row, identifier));
    var info := ProviderInfo(c, row, identifier);
    if info == map[] {
      forall k | k in raw ensures k in {"in_wanted", "in_library"} {
      }
    } else {
      var k :| k in info;
      assert k in raw && k !in {"in_wanted", "in_library"};
    }
  }

  /** A done row is left alone unless forced, and still returned. */
  lemma UpdateSkipsDoneRow(h: Helpers, c: Collaborators, rows: seq<Episode>, identifier: PyValue, defaultTitle: string)
    requires CanUpdate(h, c, rows, identifier, false) && !c.shuttingDown
    requires var row := rows[FirstIndex(rows, HasIdentifier(identifier)).value];
      row.status == Done && ProviderInfo(c, row, identifier) != map[]
    ensures UpdateStep(h, c, rows, identifier, defaultTitle, false) ==
      (rows, Returned(rows[FirstIndex(rows, HasIdentifier(identifier)).value]))
  {
  }

  /** A refresh marks the row done, overwrites its provider fields, merges
      the provider information into its info, replaces all its titles,
      attaches at most one poster, and leaves every other row alone. */
  lemma UpdateRefreshesRow(h: Helpers, c: Collaborators, rows: seq<Episode>, identifier: PyValue, defaultTitle: string, force: bool)
    requires CanUpdate(h, c, rows, identifier, force) && !c.shuttingDown
    requires var row := rows[FirstIndex(rows, HasIdentifier(identifier)).value];
      ProviderInfo(c, row, identifier) != map[] && !SkipsRefresh(row, force)
    ensures var i := FirstIndex(rows, HasIdentifier(identifier)).value;
      var row := rows[i];
      var info := ProviderInfo(c, row, identifier);
      var (after, out) := UpdateStep(h, c, rows, identifier, defaultTitle, force);
      && |after| == |rows| && out == Returned(after[i])
      && (forall j :: 0 <= j < |rows| && j != i ==> after[j] == rows[j])
      && after[i].status == Done
      && after[i].kind == row.kind && after[i].identifier == row.identifier
      && after[i].primaryProvider == row.primaryProvider && after[i].parent == row.parent
      && after[i].plot == ToUnicode(h, Get(info, "plot", Str("")))
      && after[i].tagline == ToUnicode(h, Get(info, "tagline", Str("")))
      && after[i].year == Get(info, "year", Int(0))
      && after[i].seasonNumber == TryInt(h, Get(info, "seasonnumber", NoneValue), h.tryIntDefault)
      && after[i].episodeNumber == TryInt(h, Get(info, "episodenumber", NoneValue), h.tryIntDefault)
      && after[i].absoluteNumber == TryInt(h, Get(info, "absolute_number", NoneValue), h.tryIntDefault)
      && after[i].info.Keys == row.info.Keys + info.Keys
      && (forall k :: k in info ==> after[i].info[k] == info[k])
      && (forall k :: k in row.info && k !in info ==> after[i].info[k] == row.info[k])
      && after[i].titles == RebuiltTitles(h, ProviderTitles(h, info), defaultTitle)
      && after[i].files ==
           row.files + (if FirstAttached(c, Posters(info)).Some? then [FirstAttached(c, Posters(info)).value] else [])
      && |row.files| <= |after[i].files| <= |row.files| + 1
      && (h.intOf(Get(info, "lastupdated", NoneValue)).Some? ==>
            after[i].lastUpdated == h.intOf(Get(info, "lastupdated", NoneValue)))
      && (h.intOf(Get(info, "lastupdated", NoneValue)).None? ==> after[i].lastUpdated == Some(c.now))
      && (IntOfNoneFails(h) && "lastupdated" !in info ==> after[i].lastUpdated == Some(c.now))
  {
  }

  /** `update` never changes a row's type or identifier, so it keeps them
      unique; a row's status either stays or becomes done. */
  lemma UpdateKeepsKeys(h: Helpers, c: Collaborators, rows: seq<Episode>, identifier: PyValue, defaultTitle: string, force: bool)
    requires CanUpdate(h, c, rows, identifier, force)
    ensures var after := UpdateStep(h, c, rows, identifier, defaultTitle, force).0;
      && |after| == |rows|
      && (forall j :: 0 <= j < |rows| ==>
            after[j].kind == rows[j].kind && after[j].identifier == rows[j].identifier
            && (after[j].status == rows[j].status || after[j].status == Done))
      && (UniqueKeys(rows) ==> UniqueKeys(after))
  {
  }

  // ---------------------------------------------------------------------
  // The store
  // ---------------------------------------------------------------------

  /** The episode rows and the season rows the plugin reads. */
  class EpisodeLibrary {
    var rows: seq<Episode>
    const seasons: seq<Season>

    ghost predicate Valid()
      reads this
    {
      UniqueKeys(rows)
    }

    constructor (rows: seq<Episode>, seasons: seq<Season>)
      requires UniqueKeys(rows)
      ensures Valid() && this.rows == rows && this.seasons == seasons
    {
      this.rows := rows;
      this.seasons := seasons;
    }

    /** `EpisodeLibraryPlugin.update` */
    method Update(h: Helpers, c: Collaborators, identifier: PyValue,
                  defaultTitle: string := "", force: bool := false)
      returns (r: UpdateOutcome)
      requires Valid() && CanUpdate(h, c, rows, identifier, force)
      modifies this
      ensures Valid()
      ensures (rows, r) == UpdateStep(h, c, old(rows), identifier, defaultTitle, force)
    {
      if c.shuttingDown {
        return Skipped;
      }
      UpdateKeepsKeys(h, c, rows, identifier, defaultTitle, force);
      var i := FirstIndex(rows, HasIdentifier(identifier)).value;
      var library := rows[i];
      var doUpdate := true;

      var parentIdentifier := NoneValue;
      if library.parent.Some? {
        parentIdentifier := library.parent.value.identifier;
      }
      if library.status == Done && !force {
        doUpdate := false;
      }

      var params := EpisodeParams(parentIdentifier, identifier, library.episodeNumber, library.absoluteNumber);
      var info := c.episodeInfo(params);
      info := info - {"in_wanted"};
      info := info - {"in_library"};
      assert info == ProviderInfo(c, library, identifier);

      if info == map[] {
        return Failed;
      }

      if doUpdate {
        library := RefreshRow(h, c, library, info, defaultTitle);
        rows := rows[i := library];
      }
      r := Returned(library);
    }

    /** `EpisodeLibraryPlugin.add`: returns the representation of the row it
        found or created, after the refresh it triggers. */
    method Add(h: Helpers, c: Collaborators, attrs: map<string, PyValue>,
               updateAfter: PyValue := Bool(true))
      returns (l: Episode)
      requires Valid()
      requires ExistingRow(rows, attrs).None? ==> CanCreate(h, attrs)
      requires Triggers(updateAfter) ==>
        CanUpdate(h, c, CreateStep(h, rows, seasons, attrs).0, AttrIdentifier(attrs), false)
      modifies this
      ensures Valid()
      ensures var (created, k) := CreateStep(h, old(rows), seasons, attrs);
        && rows == (if Triggers(updateAfter)
                    then UpdateStep(h, c, created, AttrIdentifier(attrs), DefaultTitle(h, attrs), false).0
                    else created)
        && k < |rows| && l == rows[k]
    {
      AddKeepsKeysUnique(h, rows, seasons, attrs);
      var k: nat;
      var found := ExistingRow(rows, attrs);
      if found.Some? {
        k := found.value;
      } else {
        var library := NewEpisode(h, seasons, attrs);
        k := |rows|;
        rows := rows + [library];
      }
      assert rows[k].identifier == AttrIdentifier(attrs);

      if updateAfter != Bool(false) {
        var _ := Update(h, c, rows[k].identifier, DefaultTitle(h, attrs), false);
      }
      l := rows[k];
    }
  }
}
