# Episode library plugin — a Dafny model

This project models the episode library plugin of CouchPotatoServer
(`EpisodeLibraryPlugin` in `couchpotato/core/media/show/library/episode/main.py`):
how an episode's season/episode identifier is resolved, how its display titles
are built from its season's titles, how titles are normalised, how `add`
creates an episode row at most once per type and identifier, and how `update`
refreshes a row from the metadata provider: status gate, field overwrite,
info merge, full title rebuild with the default-flag rule, and at most one
attached poster.

Files:

- `py_values.dfy` — `Wrappers.Option`; `PyValues`: the Python values the plugin
  inspects (`None`, booleans, integers, strings, lists, string-keyed
  dictionaries) with Python truthiness and `dict.get`, and the host helpers it
  calls (`tryInt`'s `int()` step and implicit default, `toUnicode` on non-text,
  `str.lower`, `simplifyString`) as a `Helpers` record of function values.
  What the model states holds for every choice of these functions, except
  where a lemma names an assumption about them in its `requires`
  (`OwnNumbersWithoutSceneMap`, `TwoTitlesWithoutPreference`, and the
  clock-fallback clause of `UpdateRefreshesRow`).
- `episode_naming.dfy` — `EpisodeNaming`: `identifier`, `title` (with the
  `E%02d` suffix and its read-back), `simplifyTitle` and its prefix loop.
- `episode_store.dfy` — `EpisodeStore`: the episode rows as records, the
  `EpisodeLibrary` store class whose `Add` and `Update` methods change its
  `rows`, the pure step functions `CreateStep` and `UpdateStep` those methods
  are proved against, the title loop (`BuildTitles`), the poster loop
  (`AttachFirstPoster`), and the lemmas about them.

Collaborators that sit behind the event bus are inputs: the first related
season's own titles, or None when it answers nothing (for `title`), and for
`update` a `Collaborators` record holding the provider's `episode.info` answer as a function of the request
parameters, `file.download`, `file.add` plus the reload by id, the clock and
the shutdown flag.

The store keeps one invariant, `UniqueKeys`: type and identifier select at
most one row. `Add` and `Update` preserve it.

The default flag of a rebuilt title is the rule at `main.py:202`, and the
model follows it as written. One might expect a single default title per
episode after an update, but that rule can mark none (a requested default
that matches nothing, with several provider titles) or several (repeats of the first provider title, or
several case-insensitive matches). `RequestedDefaultDecides` and
`RepeatedFirstTitleGivesTwoDefaults` state this.

## Model

| member | source | states |
|---|---|---|
| `EpisodeNaming.Identifier` | couchpotato/core/media/show/library/episode/main.py:58-84 | None exactly for non-episodes; otherwise each number is None or the `int()` of the scene-map value when the scene map is truthy, else of the row's own number, and is that integer whenever it converts |
| `EpisodeNaming.SceneMapOverridesOwnNumbers` | couchpotato/core/media/show/library/episode/main.py:67-72 | with a truthy scene map, changing the row's own season/episode numbers does not change the identifier |
| `EpisodeNaming.SceneMapWithoutNumbers` | couchpotato/core/media/show/library/episode/main.py:69-72 | a truthy scene map lacking the keys yields the coercion of None for both numbers, not the row's own numbers |
| `EpisodeNaming.OwnNumbersWithoutSceneMap` | couchpotato/core/media/show/library/episode/main.py:73-82 | without a truthy scene map the identifier is the row's own season and episode numbers |
| `EpisodeNaming.EpisodeSuffixRoundTrip` | couchpotato/core/media/show/library/episode/main.py:49 | the suffix is `E` plus at least two characters (exactly two for 0–99), all digits after an optional sign, and reads back as the episode number |
| `EpisodeNaming.Title` | couchpotato/core/media/show/library/episode/main.py:26-55 | nothing for any non-episode (whatever else it holds), for an episode without a related season, or when the season answers None; `first` never yields a list; the full list keeps the season titles' count |
| `EpisodeNaming.TitleWithEpisodeNumber` | couchpotato/core/media/show/library/episode/main.py:45-53 | with a non-zero episode number each season title, in order, is followed by the episode suffix; `first` gives the head or nothing for no titles |
| `EpisodeNaming.TitleWithoutSuffix` | couchpotato/core/media/show/library/episode/main.py:47-55 | episode 0, no episode number, or `include_identifier` off leave the season titles unchanged; a None season answer then gives nothing |
| `EpisodeNaming.StripArticleRemovesOnce` | couchpotato/core/media/show/library/episode/main.py:261-264 | a leading "the " is removed once: "the " + rest becomes rest, even when rest itself starts with "the " |
| `EpisodeNaming.StripArticleKeepsOthers` | couchpotato/core/media/show/library/episode/main.py:261-266 | a string not starting with "the " is left unchanged |
| `EpisodeNaming.StripPrefixes` | couchpotato/core/media/show/library/episode/main.py:261-264 | the prefix loop removes the first matching prefix and stops |
| `EpisodeNaming.SimplifyTitle` | couchpotato/core/media/show/library/episode/main.py:254-266 | a title not starting with an ASCII letter gets a leading `#`; the rest is the simplified title with one leading "the " removed |
| `EpisodeNaming.ComputeSimpleTitle` | couchpotato/core/media/show/library/episode/main.py:254-266 | the loop version computes exactly `SimplifyTitle` |
| `EpisodeStore.FirstIndex` | couchpotato/core/media/show/library/episode/main.py:97 | the `.first()` query: the index found satisfies the filter and no earlier one does; None when nothing does |
| `EpisodeStore.AddReusesExistingRow` | couchpotato/core/media/show/library/episode/main.py:97-98 | when a row with the same type and identifier exists, no row is created and the rows are unchanged |
| `EpisodeStore.AddCreatesOneRow` | couchpotato/core/media/show/library/episode/main.py:98-123 | otherwise exactly one row is appended: status needs-update, empty info, type `episode` and provider `thetvdb` by default, exactly one title, no files |
| `EpisodeStore.AddIsIdempotent` | couchpotato/core/media/show/library/episode/main.py:97-123 | creating twice with the same attributes leaves the rows as creating once |
| `EpisodeStore.AddKeepsKeysUnique` | couchpotato/core/media/show/library/episode/main.py:97-123 | creation preserves uniqueness of type and identifier |
| `EpisodeStore.EpisodeLibrary.Add` | couchpotato/core/media/show/library/episode/main.py:86-133 | create-if-absent, then exactly one refresh of that identifier with the given title (default `''`) unless `update_after` is False; returns the row it found or created as it stands afterwards |
| `EpisodeStore.CleanInfo` | couchpotato/core/media/show/library/episode/main.py:162-166 | `in_wanted` and `in_library` are removed, every other key is kept with its value, nothing is added |
| `EpisodeStore.BuildTitles` | couchpotato/core/media/show/library/episode/main.py:192-205 | the title loop with its counter builds exactly `RebuiltTitles` |
| `EpisodeStore.KeptTitlesAppend` | couchpotato/core/media/show/library/episode/main.py:195-198 | the stored titles of a concatenation of provider lists are the stored titles of each part, in order |
| `EpisodeStore.FalseTitlesAreSkipped` | couchpotato/core/media/show/library/episode/main.py:195-198 | a false provider title contributes nothing; a truthy one contributes its text at its place |
| `EpisodeStore.TitleStringIsWalkedByCharacter` | couchpotato/core/media/show/library/episode/main.py:192-198 | a provider `titles` value that is a string yields one title per character, in order |
| `EpisodeStore.KeptTitlesOfTexts` | couchpotato/core/media/show/library/episode/main.py:192-205 | non-empty text titles are all stored, in provider order |
| `EpisodeStore.FirstTitleIsDefaultWithoutPreference` | couchpotato/core/media/show/library/episode/main.py:202 | without a requested default the first stored title is a default |
| `EpisodeStore.SingleProviderTitleIsDefault` | couchpotato/core/media/show/library/episode/main.py:202 | a provider list of length one makes every stored title a default |
| `EpisodeStore.RequestedDefaultDecides` | couchpotato/core/media/show/library/episode/main.py:202 | with a requested default and not exactly one provider title, a title is a default iff it matches the request case-insensitively |
| `EpisodeStore.EmptyDefaultDecides` | couchpotato/core/media/show/library/episode/main.py:202 | with no requested default and not exactly one provider title, a title is a default iff it is the first stored, equals the first provider title, or lower-cases like the empty string |
| `EpisodeStore.TwoTitlesWithoutPreference` | couchpotato/core/media/show/library/episode/main.py:192-205 | provider titles "Foo", "Bar" without a requested default: both stored in order, only "Foo" is a default |
| `EpisodeStore.RepeatedFirstTitleGivesTwoDefaults` | couchpotato/core/media/show/library/episode/main.py:202 | provider titles "Foo", "Foo" without a requested default: both are defaults |
| `EpisodeStore.AttachOutcome` | couchpotato/core/media/show/library/episode/main.py:213-214 | an image that is not a string is skipped |
| `EpisodeStore.FirstAttachedIsFirstSuccess` | couchpotato/core/media/show/library/episode/main.py:210-226 | the poster loop attaches nothing iff every image fails, and otherwise the file of the first image whose download and attach succeed |
| `EpisodeStore.AttachFirstPoster` | couchpotato/core/media/show/library/episode/main.py:211-226 | the poster loop with its break attaches exactly `FirstAttached` |
| `EpisodeStore.RefreshRow` | couchpotato/core/media/show/library/episode/main.py:173-226 | the field overwrite, title rebuild and poster loop produce exactly `RefreshedRow` |
| `EpisodeStore.UpdateWhileShuttingDown` | couchpotato/core/media/show/library/episode/main.py:137-138 | while shutting down, nothing changes and None is returned |
| `EpisodeStore.UpdateFailsWithoutInfo` | couchpotato/core/media/show/library/episode/main.py:156-170 | the result is False iff the provider answer has no key besides `in_wanted`/`in_library`, whatever the status; then no row changes |
| `EpisodeStore.UpdateSkipsDoneRow` | couchpotato/core/media/show/library/episode/main.py:153-154 | a done row without `force` is left unchanged and still returned |
| `EpisodeStore.UpdateRefreshesRow` | couchpotato/core/media/show/library/episode/main.py:172-226 | a refresh sets status done; overwrites plot, tagline, year and the three numbers from the provider; sets `last_updated` to `int(lastupdated)` when that converts and to the clock otherwise (in particular when the key is missing and `int(None)` raises); merges info (provider keys win, other keys kept); replaces all titles; appends exactly the first attached poster, if any; leaves type, identifier, provider, parent and other rows alone |
| `EpisodeStore.UpdateKeepsKeys` | couchpotato/core/media/show/library/episode/main.py:172-186 | no row's type or identifier changes, so uniqueness is kept; each status stays or becomes done |
| `EpisodeStore.EpisodeLibrary.Update` | couchpotato/core/media/show/library/episode/main.py:135-230 | the method's new rows and return value are those of `UpdateStep`, and it keeps the store invariant |

## Left out

- The event bus (`addEvent`, `fireEvent`, `fireEventAsync`) and `status.get`: handlers are plain members, statuses are the two values `NeedsUpdate` and `Done`, and the answers of other plugins are inputs.
- The ORM session: queries are `FirstIndex` over the rows, and `commit`, `delete`, `expire_all` and `to_dict` are not modelled. The returned dictionary is the row record. The windows between commits, where a crash leaves a row half refreshed, are not modelled.
- `EpisodeStore.EpisodeLibrary.Add`: an `'async'` refresh is modelled as an inline refresh. Scheduling is outside this model.
- `updateReleaseDate` (main.py:232-250): its body is a comment, so the handler does nothing and is not modelled.
- The bodies of `tryInt`, `toUnicode`, `simplifyString` and `str.lower` are abstract. `toUnicode` is taken as the identity on text.
- `file.download` and the `file.add` plus reload are functions of the URL and of the path. Two calls with the same argument give the same answer.
- A failing `db.commit()` inside the attach `try` (main.py:222) is not modelled. The attach counts as succeeding once the file reloads.
- `add` creates the initial title without a default flag, and the column's own default is not shown. The model takes it as false.
- `title`'s `condense` flag is only passed on to the season's own title event. That answer is an input here.
- Inputs on which the source raises are preconditions, not behaviour:
  - `update` with no row for the identifier (main.py:150);
  - `images` missing (its default, a list, has no `get`) or not a dictionary (main.py:210-212);
  - a poster entry or a `titles` value that cannot be iterated, such as None or a number (main.py:195, 212);
  - an empty title given to `simplifyTitle` (main.py:258), from `add` or from a provider title;
  - an episode reaching `identifier` without an `info` dictionary, with a `map_episode` entry that is not a dictionary, or with a truthy scene entry that is not a dictionary (main.py:67-72);
  - an episode reaching `title` with a `related_libraries` entry that is not a dictionary, or with a truthy `season` entry that cannot be indexed by 0 (main.py:31-37);
  - a season answer of None when a suffix is to be appended, since it is iterated (main.py:49).
- Simplifications beyond those crashes:
  - A poster entry or a `titles` value that is a dictionary is iterated by Python over its keys, in an order Python 2 leaves unspecified. Such values are excluded. Strings and lists are modelled, and a string is walked character by character.
  - The season's answer at main.py:35 is modelled as a list of strings or None. Other kinds of answer are not modelled.
  - The `library is list` test (main.py:27) is always false and is dropped.
- Logging is not modelled.
