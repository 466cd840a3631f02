# Presence and activity payloads of the abaddon Discord client

This project models the presence/activity wire encoding of the abaddon
desktop client (`src/discord/activity.hpp`) and proves its rules in Dafny.

- **Status strings.** `PresenceStatus` is an enumeration stored as a
  `uint8_t`. It has two total mappings to strings: the wire form
  (`"online"`, `"offline"`, `"idle"`, `"dnd"`) and the label shown in the
  interface (`"Online"`, `"Offline"`, `"Away"`, `"Do Not Disturb"`). Only a
  stored byte outside the four enumerators falls through to the `""` fallback.
  Both mappings are injective. The wire mapping is proved to have an inverse.
- **Numeric codes.** `ActivityType` carries the codes 0..5. Each
  `ActivityFlags` value is `1 << k` for k = 0..5. The codes and masks are
  proved to be in one-to-one correspondence with the variants, and any two
  different flags share no bit.
- **Payload builders.** The yyjson document is modelled as an ordered list of
  `(key, value)` entries. Each `Add*` call appends one entry holding the value
  the callee receives: a plain string, an optional string, an int, an optional
  int, an optional bool, or an empty array. A string passed as `c_str()` is a
  NUL-terminated C string, so the callee receives it cut at its first `'\0'`.
  - `ActivityData::GetDataBlock` resets the activity's own document and writes
    14 keys, each once, in a fixed order: `name`, `state`, `type`, `url`,
    `created_at`, `timestamps`, `application_id`, `details`, `emoji`, `party`,
    `assets`, `secrets`, `instance`, `flags`.
  - A custom activity is sent under the name `"Custom Status"`, and its own
    name becomes the state, as a plain string. Any other activity sends its
    name, and its optional state.
  - `type` is the numeric code of the type.
  - Every key from `url` through `flags` is given the activity's `URL` value,
    not the same-named field. The code does this, and the model follows it.
  - `PresenceData::GetDataBlock` writes `activities` (always an empty array,
    whatever the presence holds), `status`, `afk` and `since`, in that order.
    `status` is passed as `Status.c_str()`, so a status containing `'\0'` is
    sent cut at the first `'\0'`. `since` is the given optional when present,
    and the plain integer 0 otherwise.

Files:
- `yyjson_document.dfy` (module `YYJson`): values and entries, lookup by key
  (`ValueAt`, the first entry with the key) and the document class.
- `activity.dfy` (module `Activity`): the enumerations, the mappings, the
  records, the two builders and the lemmas about what they write.

`ActivityData` is a class, because its `GetDataBlock` mutates the member
document `yyjsn`. That method is proved to leave exactly
`ActivityBlock(Name, Type, State, URL)` in the document. `PresenceData` is a
value: its `GetDataBlock` is `const` and builds a local document. It is proved
to return `PresenceBlock(Status, IsAFK, Since)`. The lemmas on `ActivityBlock`
and `PresenceBlock` state what a reader of the document finds under each key.

## Model

| member | source | states |
|---|---|---|
| `Activity.PresenceStatus.Code` | src/discord/activity.hpp:10-15 | the stored `uint8_t` of an enumerator is below 4 |
| `Activity.PresenceStatusOfCode` | src/discord/activity.hpp:10-15 | a stored byte names an enumerator exactly when it is below 4, and then that enumerator's code is the byte |
| `Activity.GetPresenceString` | src/discord/activity.hpp:17-29 | no enumerator gets the `""` fallback wire string |
| `Activity.PresenceStringOfCode` | src/discord/activity.hpp:17-29 | the switch on the stored byte returns `""` exactly for a byte outside the four enumerators, and otherwise the enumerator's wire string |
| `Activity.PresenceStringRoundTrip` | src/discord/activity.hpp:17-29 | reading a wire string back gives the status it came from, and a string reads back as a status only when it is that status's wire string |
| `Activity.PresenceStringInjective` | src/discord/activity.hpp:17-29 | two statuses have the same wire string if and only if they are equal |
| `Activity.GetPresenceDisplayString` | src/discord/activity.hpp:31-43 | no enumerator gets the `""` fallback label |
| `Activity.PresenceDisplayStringOfCode` | src/discord/activity.hpp:31-43 | the label switch on the stored byte returns `""` exactly for a byte outside the four enumerators, and otherwise the enumerator's label |
| `Activity.PresenceDisplayStringInjective` | src/discord/activity.hpp:31-43 | two statuses have the same label if and only if they are equal |
| `Activity.ActivityType.Code` | src/discord/activity.hpp:45-52 | the numeric code of every activity type lies in 0..5 |
| `Activity.ActivityTypeOfCode` | src/discord/activity.hpp:45-52 | an int names an activity type exactly when it lies in 0..5 |
| `Activity.ActivityTypeCodeRoundTrip` | src/discord/activity.hpp:45-52 | a type's code reads back as that type, and a code reads back as a type only when it is that type's code |
| `Activity.ActivityTypeCodeInjective` | src/discord/activity.hpp:45-52 | two activity types have the same code if and only if they are equal |
| `Activity.ActivityFlags.Bit` | src/discord/activity.hpp:54-61 | every flag is `1 << k` with k below 6 |
| `Activity.ActivityFlags.Mask` | src/discord/activity.hpp:54-61 | every flag value has exactly one bit set, among the low six bits |
| `Activity.ActivityFlagMaskRoundTrip` | src/discord/activity.hpp:54-61 | a flag's mask reads back as that flag, and a mask reads back as a flag only when it is that flag's mask |
| `Activity.ActivityFlagsDisjoint` | src/discord/activity.hpp:54-61 | two flags' masks share no bit if and only if the flags differ |
| `Activity.ActivityData.GetDataBlock` | src/discord/activity.hpp:129-154 | the document is rebuilt from scratch, the returned root is the document's content, and that content is `ActivityBlock` of the name, type, state and URL |
| `Activity.ActivityBlockKeys` | src/discord/activity.hpp:132-151 | the activity block's keys are exactly name, state, type, url, created_at, timestamps, application_id, details, emoji, party, assets, secrets, instance, flags, in that order, none twice (`ActivityKeysDistinct`, used by its proof, states that the fourteen key literals differ) |
| `Activity.ActivityBlockNameState` | src/discord/activity.hpp:132-140 | for a custom activity, `name` reads `"Custom Status"` and `state` reads the activity's name. Otherwise `name` reads the name and `state` reads the optional state. `type` reads the type's code |
| `Activity.ActivityBlockUrlFields` | src/discord/activity.hpp:141-151 | every key from `url` through `flags` reads the activity's optional URL |
| `Activity.PresenceData.GetDataBlock` | src/discord/activity.hpp:166-182 | the returned root is `PresenceBlock` of the status (passed through `c_str()`), the AFK flag and `since`, whatever the activity list holds |
| `Activity.PresenceBlockKeys` | src/discord/activity.hpp:166-182 | the presence block's keys are exactly activities, status, afk, since, in that order, none twice |
| `Activity.PresenceBlockValues` | src/discord/activity.hpp:171-179 | `activities` reads an empty array, `status` reads the status cut at its first `'\0'` (as `c_str()` hands it over) and `afk` reads the optional AFK flag. `since` reads the optional `since` when present and the plain integer 0 otherwise |
| `YYJson.CStr` | src/discord/activity.hpp:173 | what `Status.c_str()` hands over is the longest prefix of the status without `'\0'`: it stops exactly at the first `'\0'`, or at the end |
| `Activity.PresenceBlockStatusWhole` | src/discord/activity.hpp:173 | a status without `'\0'` is sent whole, so a status set from a wire string reads back as that `PresenceStatus` |
| `Activity.PresenceSinceDefault` | src/discord/activity.hpp:176-179 | `since` always carries an integer: the given value, or 0 when there is none |

## Left out

- The yyjson wrapper (`yyjson_util.h`) is not part of this model. A document
  is an ordered entry list, and each `Add*` call appends one entry. How the
  library writes an absent optional is not modelled. Nor is the argument of
  `CreateDoc(false)`.
- Pointer ownership is not modelled. `GetDataBlock` returns the root as the
  entry list, not as a pointer into the document, so a root that aliases a
  later-modified or destroyed document is not captured. That includes
  `PresenceData::GetDataBlock` returning the root of a local document.
- `ActivityData.Type` holds only the six `ActivityType` enumerators. The C++
  enumeration has the fixed underlying type `int`, so it can also hold a raw
  `int` outside 0..5 (for example one read by `from_json`). For such a value
  the builder takes the non-custom branch and writes the raw integer under
  `"type"`; that case is not modelled.
- The `from_json`/`to_json` friends are only declared in the header. Their
  bodies are not part of this model.
- `Bitwise<ActivityFlags>` enables bitwise operators defined in
  `misc/bitwise.hpp`, which is not part of this model. Only the single flag
  values are modelled.
- `snowflake.hpp` is not part of this model. A snowflake is an unbounded
  integer.
- `ActivityTimestamps`, `ActivityEmoji`, `ActivityParty`, `ActivityAssets` and
  `ActivitySecrets` are modelled as plain records. No modelled operation reads
  them.
- The window and sidebar widgets (`windows/mainwindow.hpp`,
  `src/components/channellist/classic/guildlistfolderitem.hpp`) are GTK
  composition and signal forwarding, with no behaviour to state.
