# Music Assistant data models in Dafny

This project models the parts of the Music Assistant shared data models
(`music_assistant_models`) that have behaviour, and proves what they promise.

- **Media-item decoding** (`media_items/__init__.py`). `media_from_dict` takes a raw
  payload and picks the record class it decodes to. A payload without a
  `provider_mappings` key is a reference (`ItemMapping`), whatever its media type
  says. Any other payload is dispatched on its `media_type` over nine fixed tags
  (artist, album, track, playlist, radio, audiobook, chapter, podcast, episode).
  Any other tag is rejected with `InvalidDataError("Unknown media type")`.
  `is_track` tests an item's media type against TRACK.
- **Player records** (`player.py`). The `DeviceInfo` serialization hook adds a
  legacy `address` alias. `PlayerMedia(uri)` fills in defaults. The mutable
  `Player` record has a derived `corrected_elapsed_time`, a `current_item_id`
  getter and a backward-compatibility setter. It also has two server-only fields
  that serialization omits and equality ignores.

Files:

- `wrappers.dfy` (module `Wrappers`): `Option` and `Result`.
- `values.dfy` (module `Values`): the JSON-like `Value`, the `Payload` dict, and
  Python truthiness of values.
- `enums.dfy` (module `Enums`): the enumeration members the behaviour depends on.
- `media_items.dfy` (module `MediaItems`): the decoder. It is proved against a
  dispatch table, which is a separate reference definition.
- `player.dfy` (module `PlayerModel`): `DeviceInfo`, `PlayerMedia`,
  `PlayerSource`, the Player field metadata and the `Player` class.

Each record class's own `from_dict` is the serialization library's and is not
modelled. Decoding to class C is represented by `Decoded(C, payload)`, which
stands for the call `C.from_dict(payload)`. The wall clock read by
`corrected_elapsed_time` becomes the parameter `now`, and times are real numbers.

A payload that has `provider_mappings` but no `media_type` fails on the
subscript `media_item["media_type"]` (`media_items/__init__.py:93`) with a lookup
error, modelled as `KeyError("media_type")`. It never reaches the
"Unknown media type" raise.

## Model

| member | source | states |
|---|---|---|
| `MediaItems.MediaFromDict` | music_assistant_models/media_items/__init__.py:89-111 | A payload without `provider_mappings` decodes as an ItemMapping of that payload. Every decoder call gets the whole payload. The decoder never yields PlaylistTrack or BrowseFolder. It fails only when `provider_mappings` is present, and then only with the missing-`media_type` lookup error or "Unknown media type". |
| `MediaItems.LookupSound` | music_assistant_models/media_items/__init__.py:93-110 | A tag lookup that succeeds found a table entry whose tag is the value, and returns that entry's class. |
| `MediaItems.LookupFinds` | music_assistant_models/media_items/__init__.py:93-110 | In a table with distinct tags, every entry's tag finds that entry's class. |
| `MediaItems.LookupMisses` | music_assistant_models/media_items/__init__.py:111 | A value that is no entry's tag finds nothing. |
| `MediaItems.DispatchTableDistinct` | music_assistant_models/media_items/__init__.py:93-110 | The dispatch is deterministic. There are nine tags, pairwise distinct, and they map to nine distinct classes. None of these classes is ItemMapping, PlaylistTrack or BrowseFolder. |
| `MediaItems.MediaFromDictMatchesTable` | music_assistant_models/media_items/__init__.py:93-111 | When both keys are present, the chain of tag comparisons returns exactly the class the dispatch table gives for the tag. If the table has no such tag, the result is "Unknown media type". |
| `MediaItems.DecodesDispatchedTag` | music_assistant_models/media_items/__init__.py:93-110 | A payload with `provider_mappings` whose `media_type` is the i-th dispatched tag decodes to the i-th class. |
| `MediaItems.RejectsUnknownTag` | music_assistant_models/media_items/__init__.py:111 | A payload with `provider_mappings` whose `media_type` is none of the nine tags fails with InvalidDataError "Unknown media type". This includes non-string values. |
| `MediaItems.MissingMediaTypeIsKeyError` | music_assistant_models/media_items/__init__.py:93 | A payload with `provider_mappings` but without `media_type` fails with a lookup error on `media_type`. It never decodes to a class. |
| `MediaItems.RejectsPlaylistTrackAndBrowseFolder` | music_assistant_models/media_items/__init__.py:93-111 | The tags `playlist_track` and `browse_folder` are not dispatched. A payload with `provider_mappings` and either tag is rejected. |
| `MediaItems.DecodeSucceedsIff` | music_assistant_models/media_items/__init__.py:89-111 | Decoding succeeds if and only if `provider_mappings` is absent, or `media_type` is present and is a dispatched tag. When a full item decodes, its class is the one the table pairs with the payload's tag. |
| `MediaItems.IsTrack` | music_assistant_models/media_items/__init__.py:114-116 | `is_track` holds exactly when the item's media type is TRACK. |
| `MediaItems.IsTrackIgnoresClass` | music_assistant_models/media_items/__init__.py:114-116 | `is_track` depends on the media type only, never on the record class. For example, an ItemMapping whose media type is TRACK passes it. |
| `PlayerModel.DefaultDeviceInfo` | music_assistant_models/player.py:20-26 | `DeviceInfo()` is "Unknown model" by "Unknown Manufacturer", and every optional field is None. |
| `PlayerModel.PostSerialize` | music_assistant_models/player.py:28-33 | The hook adds the key `address` and changes no other key, so `ip_address` keeps its value. `address` holds `ip_address` when that value is truthy. Otherwise `address` holds "", which covers None, a missing key and the empty string. |
| `PlayerModel.EncodeFields` | music_assistant_models/player.py:20-26 | Before the hook, the encoding of a DeviceInfo has exactly one key per declared field. |
| `PlayerModel.SerializeDeviceInfo` | music_assistant_models/player.py:16-33 | `to_dict()` of a DeviceInfo carries its seven field keys, each with its encoded value, plus `address`. `ip_address` is unchanged. `address` holds the IP address when one is set and "" when it is unset or empty. |
| `PlayerModel.SerializedAddressExamples` | music_assistant_models/player.py:28-33 | `DeviceInfo(ip_address="10.0.0.5")` serializes with `address` "10.0.0.5". `DeviceInfo()` serializes with `address` "". |
| `PlayerModel.NewPlayerMedia` | music_assistant_models/player.py:40-49 | `PlayerMedia(uri)` keeps the uri and has media type UNKNOWN. Title, artist, album, image_url, duration, queue_id, queue_item_id and custom_data are all None. |
| `PlayerModel.SerializedKeysIff` | music_assistant_models/player.py:177-190 | A name is a key of the encoded dict exactly when some declared field of that name is emitted by the encoder. |
| `PlayerModel.PlayerFieldsMetadata` | music_assistant_models/player.py:66-190 | In the Player field table, a field is serialized exactly when it is neither `previous_volume_level` nor `last_poll`, the two fields marked `serialize="omit"`. |
| `PlayerModel.SerializedKeysOfServerOnlyExactly` | music_assistant_models/player.py:177-190 | In any table marked that way, the server-only names are never encoded keys, and every other declared name is one. |
| `PlayerModel.ServerOnlyFieldsOmitted` | music_assistant_models/player.py:172-190 | A serialized Player never contains `previous_volume_level` or `last_poll`. Every other declared field is serialized. |
| `PlayerModel.Player.constructor` | music_assistant_models/player.py:66-190 | A new Player has the six required fields as given and every other field at its declared default. |
| `PlayerModel.Player.CorrectedElapsedTime` | music_assistant_models/player.py:196-203 | The result is None when `elapsed_time` or `elapsed_time_last_updated` is None. When PLAYING, it is `elapsed_time + (now - elapsed_time_last_updated)`. In any other state it is exactly `elapsed_time`. |
| `PlayerModel.Player.CurrentItemId` | music_assistant_models/player.py:205-210 | The getter returns the uri of `current_media` when there is one, and None otherwise. |
| `PlayerModel.Player.SetCurrentItemId` | music_assistant_models/player.py:212-215 | After the setter, `current_media` is exactly `PlayerMedia(uri)`, so earlier metadata is dropped, and the getter returns the uri. Every other field, including the server-only ones, is unchanged. |
| `PlayerModel.Player.Equals` | music_assistant_models/player.py:62-190 | The generated `==` holds exactly when the two players agree on each of the 33 fields other than `previous_volume_level` and `last_poll`, which are declared `compare=False`. |
| `PlayerModel.EqualityIgnoresServerOnlyFields` | music_assistant_models/player.py:177-190 | Writing `previous_volume_level` and `last_poll` of one player never changes whether it equals another player, in either direction. |
| `PlayerModel.ElapsedAtLastUpdate` | music_assistant_models/player.py:199-203 | Evaluated at the moment of the last update, the corrected time equals `elapsed_time`. |
| `PlayerModel.ElapsedAdvancesWithClock` | music_assistant_models/player.py:201-202 | While PLAYING, the corrected time advances exactly as much as the clock, so it never decreases as `now` grows. |
| `PlayerModel.ElapsedRunsBackwardsOnEarlierClock` | music_assistant_models/player.py:201-202 | The result is not clamped. While PLAYING, a `now` earlier than the last update gives less than `elapsed_time`; elapsed 1.0, last update 100.0 and `now` 50.0 give -49.0. |
| `PlayerModel.ElapsedFrozenUnlessPlaying` | music_assistant_models/player.py:199-203 | A player that is not PLAYING gets the same corrected time at every `now`. |

## Left out

- Each record class's `from_dict` and `to_dict` belong to the mashumaro library. Field-level validation, defaults applied on decode, and a record class's own decoding failures are not modelled. Each class's decoding is represented only by its class tag and the payload it receives.
- `PlayerModel.EncodeFields` stands in for the library's structural encoding of a DeviceInfo, as a flat map with one key per field. It exists only so that the hook can be stated on real encodings.
- Player serialization is modelled by its field metadata only, that is, by which keys the encoder emits. The encoded values of those fields are the library's and are left out. Player `==` is modelled by `Player.Equals`.
- `time.time()` is a wall-clock read. It becomes the parameter `now`. No clock monotonicity is assumed, so an earlier `now` makes the corrected time run backwards, as in the code.
- `PlayerModel.Player.CorrectedElapsedTime`: times are real numbers, so IEEE float rounding in the sum is not modelled.
- `PlayerModel.PostSerialize`: the hook writes `address` into the dict it is given and returns that same dict. The model returns the updated map as a new value, so the aliasing between argument and result is not modelled.
- `UniqueList` deduplication and the "own id first" order of `group_childs` are not modelled. `unique_list.py` is not part of this model, and that order is only described in comments, never enforced in code. `group_childs` and `source_list` are plain sequences.
- `SearchResults`, the `__all__` list and the `MediaItemType` alias hold data and have no behaviour.
- The enumeration and constant modules are not part of this model. `MediaType` mirrors the media kinds, and only TRACK and UNKNOWN are used. `PlayerState` distinguishes PLAYING from the other states. `PlayerType` and `PlayerFeature` have no fixed members: each wraps an open name. The value of `PLAYER_CONTROL_NATIVE` is left unspecified (`PlayerControlNative`).
- `PlayerModel.Player.Equals`: values inside the `Any`-typed dicts (`extra_data`, and `custom_data` of the current media) compare structurally as `Value`s. Python's numeric equality across `bool`, `int` and `float` (`1 == 1.0 == True`) is not modelled, so two players differing only that way are equal in the code but not in the model.
- `is_track` is annotated as a type guard for Track. The model states only the comparison it performs, not the type narrowing.
- Concurrency is not modelled: the records give no threading guarantees.
