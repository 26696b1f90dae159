# WeMeet legacy-API adapter, modelled in Dafny

The repository's `bbbapiwrapper` package accepts the "create" and "join"
calls of a legacy conferencing API. It turns them into the room protocol's
`CreateRoomReq` and `GenerateTokenReq`. The `utils` package then normalises a
`CreateRoomReq` in place:

- it fills unset feature blocks with defaults;
- it enforces the server's upload, notepad, breakout and encryption policy;
- it defaults three locks;
- it clamps quotas against the server's configured caps.

This project models those three files:

- `options.dfy`: module `Optional`. It models a Go pointer as `Option`.
- `wemeet.dfy`: module `Wemeet`. It holds the protocol messages.
  - Nested messages are datatypes whose constructor defaults are Go's zero values.
  - `CreateRoomReq` is a class, because the utilities update it through a pointer.
- `strings.dfy`: module `GoStrings`. It models `strings.Contains`,
  `strings.Replace(…, 1)` and `strings.Split`, with `Split` proved to invert `Join`.
- `create_room.dfy`: module `Utils`. It models `utils/create_room.go`. Each
  Go function that updates the request in place is a module-level method
  that takes the `CreateRoomReq` object and modifies it. Its new state is tied to
  a specification function, and the lemmas are proved about that function.
- `create.dfy`: module `BbbCreate`. It models `bbbapiwrapper/create.go`.
  - The disable-list loop and the `meta_` loop are methods with loop invariants.
  - `ConvertCreateRequest` allocates the request object. Its result is tied
    to `ConvertedFeatures` and `ConvertedLocks`.
- `join.dfy`: module `BbbJoin`. It models `bbbapiwrapper/join.go` as a pure function.

External collaborators are parameters:

| Go call | parameter |
|---|---|
| `CheckMeetingIdToMatchFormat` | `normalize` |
| `url.QueryUnescape` | `unescape`, which returns `None` on a decoding error |
| `json.Marshal` | `marshal`, which returns `None` on failure |
| the random key generators | `key` |
| `time.Now` | `now` |

Two behaviours of the code are easy to misread:

- **`meta_` keys.** Keys are matched with `strings.Contains`
  (bbbapiwrapper/create.go:183), so `xmeta_y` counts as a meta key as well
  as `meta_x`. Only the first `meta_` is removed (create.go:189). See
  `IsMetaKey` and `StripMeta`.
- **Breakout ceiling.** The comment at utils/create_room.go:202 says at most
  16 breakout rooms are allowed, but the code does not guarantee it; see
  Findings.

## Model

| member | source | states |
|---|---|---|
| GoStrings.Index | bbbapiwrapper/create.go:183 | the result is the first position where `sub` occurs, or none when it occurs nowhere |
| GoStrings.Contains | bbbapiwrapper/create.go:183 | true exactly when `sub` occurs at some position of `s` |
| GoStrings.ReplaceFirst | bbbapiwrapper/create.go:189 | without an occurrence the string is unchanged; otherwise exactly the first occurrence is replaced |
| GoStrings.Split | bbbapiwrapper/create.go:210 | at least one piece; no piece contains the separator; joining the pieces gives back the input |
| GoStrings.SplitJoin | bbbapiwrapper/create.go:210 | splitting a join of separator-free pieces gives back the pieces |
| Wemeet.CreateRoomReq.constructor | bbbapiwrapper/create.go:86-88 | a new request has the given id and metadata, and no participant cap or empty timeout |
| Utils.FillFeatureDefaults | utils/create_room.go:12-98 | each unset block gets its fixed default; each set block is kept; nothing outside the blocks changes; an unset polls block inherits `allowPolls` |
| Utils.FillFeatureDefaultsFixesComplete | utils/create_room.go:12-98 | a feature record with every block set is left unchanged |
| Utils.FillFeatureDefaultsIdempotent | utils/create_room.go:12-98 | filling defaults twice is filling them once |
| Utils.PreparedMetadata | utils/create_room.go:94-106 | the features are filled; an unset lock record becomes the empty record; `startedAt` is the given time; nothing else changes |
| Utils.PreparedMetadataIdempotent | utils/create_room.go:9-106 | preparing twice equals preparing once, up to the last timestamp |
| Utils.PreparedHasPolicyBlocks | utils/create_room.go:9-106 | after preparation every block the server policy dereferences is set |
| Utils.PrepareDefaultRoomFeatures | utils/create_room.go:9-106 | the request's metadata becomes the prepared metadata; id, participant cap and timeout are unchanged |
| Utils.NotepadPolicy | utils/create_room.go:117-119 | the notepad ends allowed exactly when it was allowed and the server allows it, so it is never switched on; its other fields are kept |
| Utils.ChatPolicy | utils/create_room.go:121-126 | with upload allowed: the size limit is set, and the file types are replaced only when empty. Without upload, chat is unchanged |
| Utils.WhiteboardPolicy | utils/create_room.go:128-133 | an allowed whiteboard gets `Some(30)` for a configured size below 1, else `Some(size)`; a disallowed one is unchanged; only the size limit changes |
| Utils.BreakoutPolicy | utils/create_room.go:135-137 | allowed breakout rooms always end with a positive count; 0 becomes 6; any other block is unchanged |
| Utils.EncryptionKeyPolicy | utils/create_room.go:139-147 | the key is replaced exactly when encryption is enabled and self-insertion is off; otherwise the block is unchanged |
| Utils.ApplyServerPolicy | utils/create_room.go:108-148 | each policy block is rewritten by its rule; an unset auto-user-id becomes `Some(false)`; nothing else changes |
| Utils.ApplyServerPolicyIdempotent | utils/create_room.go:108-148 | enforcing the same policy twice equals enforcing it once |
| Utils.SetCreateRoomDefaultValues | utils/create_room.go:108-148 | the request's features become the policy result; all other request state is unchanged |
| Utils.FillDefaultLocks | utils/create_room.go:150-164 | screen sharing, whiteboard and notepad: unset becomes `Some(true)`, set is kept; other locks are untouched; an explicit unlock survives and none is introduced |
| Utils.FillDefaultLocksIdempotent | utils/create_room.go:150-164 | defaulting the locks twice is defaulting them once |
| Utils.SetRoomDefaultLockSettings | utils/create_room.go:150-164 | the request's lock record becomes the defaulted record; nothing else changes |
| Utils.RoomDefaultSettings.constructor | utils/create_room.go:166-170 | a configuration holds the three given optional caps |
| Utils.ClampToCap | utils/create_room.go:177-185 | the result lies in (0, cap]: an in-range request is kept; unset, zero or too large becomes the cap |
| Utils.CapIfConfigured | utils/create_room.go:177-195 | a cap applies only when configured and positive, and then the result lies in (0, cap] and an in-range request is kept; otherwise the request is unchanged |
| Utils.ClampToCapIdempotent | utils/create_room.go:177-195 | clamping twice is clamping once |
| Utils.EmptyTimeoutOrDefault | utils/create_room.go:197-200 | the timeout ends at least 120: at least 120 is kept; unset or below 120 becomes 1800 |
| Utils.EffectiveBreakoutCap | utils/create_room.go:202-208 | the cap is 16 when no breakout cap is configured or the participant cap exceeds 16; otherwise it is the configured breakout cap |
| Utils.IntendedBreakoutCap | utils/create_room.go:202-208 | the cap compares the breakout cap itself with 16: unset or above 16 gives 16, otherwise the configured cap; never above 16 |
| Utils.ClampRooms | utils/create_room.go:210-212 | the count is lowered to the cap when above it, and otherwise kept |
| Utils.IntendedClampAtMostSixteen | utils/create_room.go:202-212 | with the intended cap, no room keeps more than 16 breakout rooms |
| Utils.BreakoutClampExceedsSixteen | utils/create_room.go:202-212 | as written, participant cap 10 with breakout cap 100 lets a request keep 50 breakout rooms |
| Utils.FirstCallBreaksReuse | utils/create_room.go:202-208 | one call on a configuration with no caps leaves it with breakout cap 16 and no participant cap, outside what a second call accepts |
| Utils.IntendedCapReusable | utils/create_room.go:202-208 | storing the intended cap back into the configuration and recomputing gives the same cap, without reading the participant cap |
| Utils.SetDefaultRoomSettings | utils/create_room.go:172-213 | nil settings change nothing; otherwise the participant cap, duration, timeout and breakout clamps apply, and the settings' breakout cap is overwritten with the effective cap |
| BbbCreate.Lookup | bbbapiwrapper/create.go:168 | a missing key reads as the empty string |
| BbbCreate.ParseToken | bbbapiwrapper/create.go:214-235 | a token names a feature only by exact match; every other token names none |
| BbbCreate.ParseTokenRoundTrip | bbbapiwrapper/create.go:214-235 | each feature's token parses back to that feature |
| BbbCreate.DisableToken | bbbapiwrapper/create.go:214-235 | a recognised token switches off exactly its own feature; an unrecognised one changes nothing, like the `switch` without a default |
| BbbCreate.Disable | bbbapiwrapper/create.go:214-235 | the named feature's switch becomes false, and every other switch is unchanged |
| BbbCreate.DisableKeepsRest | bbbapiwrapper/create.go:214-235 | disabling a feature changes nothing outside the switches |
| BbbCreate.DisableAll | bbbapiwrapper/create.go:213-236 | the blocks the switches live in stay set |
| BbbCreate.DisableAllFlags | bbbapiwrapper/create.go:209-237 | a switch ends false exactly when its token occurs in the list, and otherwise keeps its value |
| BbbCreate.DisableAllKeepsRest | bbbapiwrapper/create.go:209-237 | a disable list changes nothing outside the switches |
| BbbCreate.DisableAllTwice | bbbapiwrapper/create.go:209-237 | applying a disable list twice equals applying it once |
| BbbCreate.DisableAllOrderInsensitive | bbbapiwrapper/create.go:209-237 | lists with the same tokens give the same features, whatever the order and repetition |
| BbbCreate.FlagsDetermine | bbbapiwrapper/create.go:209-237 | features that agree on every switch and on everything else are equal |
| BbbCreate.SetDifferentFeatures | bbbapiwrapper/create.go:209-237 | the loop over the comma-split tokens computes the disable list: named switches false, the rest unchanged |
| BbbCreate.RequestLocks | bbbapiwrapper/create.go:239-257 | each requested lock becomes `Some(true)`; an unrequested lock keeps its value; no explicit unlock is introduced |
| BbbCreate.RequestLocksIdempotent | bbbapiwrapper/create.go:239-257 | applying the requested locks twice equals applying them once |
| BbbCreate.SetLockSettings | bbbapiwrapper/create.go:239-257 | the sequence of conditional writes yields the requested-lock record |
| BbbCreate.ConvertedLocks | bbbapiwrapper/create.go:172-179 | screen sharing, whiteboard and notepad are `Some(true)`; the other four are `Some(true)` exactly when requested, else `None`; nothing is `Some(false)` |
| BbbCreate.IsMetaKey | bbbapiwrapper/create.go:183 | a key is a meta key exactly when `meta_` occurs anywhere in it, so prefixed keys and others qualify |
| BbbCreate.MetaValue | bbbapiwrapper/create.go:184-188 | the unescaped value when unescaping succeeds, the raw value otherwise |
| BbbCreate.StripMeta | bbbapiwrapper/create.go:189 | removing the marker shortens the key by its length |
| BbbCreate.CollectMeta | bbbapiwrapper/create.go:181-191 | the keys are the stripped meta keys. Each value is the decoded, or raw, value of some raw key that strips to it. A key with no competitor carries its own value |
| BbbCreate.BaselineFeatures | bbbapiwrapper/create.go:90-132 | the baseline sets every block the disable list writes into; webcams, RTMP and analytics are on; the user list is hidden; the two request flags are copied; auto user ids are on; recording follows `record` and `autoStartRecording`; file upload, external links, ingress and translation are on; waiting room, encryption and polls blocks are unset |
| BbbCreate.ConvertedKeepsBaseline | bbbapiwrapper/create.go:90-132 | auto user ids, recording, file upload, external links, ingress and translation keep their baseline values after conversion, and the encryption and polls blocks stay unset |
| BbbCreate.BaselineAllEnabled | bbbapiwrapper/create.go:90-132 | every feature that can be disabled starts enabled |
| BbbCreate.DisableList | bbbapiwrapper/create.go:159-161 | an empty list is skipped; the result switches off exactly the named features and changes nothing else |
| BbbCreate.RequestedFeatures | bbbapiwrapper/create.go:137-157 | the baseline with duration and waiting room keeps its switch blocks |
| BbbCreate.RequestExtras | bbbapiwrapper/create.go:163-175 | the post-disable changes keep the switch blocks |
| BbbCreate.ConvertedFeatures | bbbapiwrapper/create.go:84-175 | duration iff positive; waiting room, active, iff `ASK_MODERATOR`; analytics on unless `meetingKeepEvents` was sent non-empty; user list always hidden |
| BbbCreate.ConvertedFlags | bbbapiwrapper/create.go:159-161 | after conversion a feature is off exactly when the disable list names it |
| BbbCreate.ConvertedPreload | bbbapiwrapper/create.go:163-165 | the presentation is preloaded exactly when it is non-empty and `presentation` is not a token of the list |
| BbbCreate.ConvertFeatures | bbbapiwrapper/create.go:84-175 | the in-order construction yields the converted features |
| BbbCreate.ConvertCreateRequest | bbbapiwrapper/create.go:84-207 | no request on a marshal failure; otherwise covers id, caps, texts, features and locks. Extra data keeps the raw id, passwords, logo and meta map |
| BbbJoin.ConvertJoinRequest | bbbapiwrapper/join.go:29-47 | normalised room id; name and admin flag copied; user id always passed on; empty lock record; profile picture iff the avatar URL is non-empty |
| BbbJoin.JoinIgnoresCredentials | bbbapiwrapper/join.go:9-17 | the password, role and redirect parameters do not affect the token request |

## Left out

- `CheckMeetingIdToMatchFormat`: its source is not part of this model. It is the parameter `normalize`, and nothing is assumed about it.
- `url.QueryUnescape`: modelled as the parameter `unescape`. Percent-decoding itself is not specified.
- `json.Marshal`: modelled as the parameter `marshal`. The extra data is kept as a record, and the JSON text is not specified.
- `GenerateSecureRandomStrings` and `GenerateRandomStrings`: the secure generator, its fallback and the length 32 are not modelled. The generated key is the parameter `key`.
- `time.Now`: modelled as the parameter `now`, so `PreparedMetadataIdempotent` holds only up to the timestamp.
- `Wemeet.uint32`, `Wemeet.uint64`: widths are unbounded naturals. No code path does arithmetic, so nothing can wrap.
- `RoomMetadata.roomFeatures` and `CreateRoomReq.metadata`: both are non-optional, so the model cannot represent a nil `Metadata` or `RoomFeatures`. That includes the paths where Go never touches them: `SetDefaultRoomSettings(nil, r)` returns at utils/create_room.go:173-175, and `SetRoomDefaultLockSettings` never reads `RoomFeatures`.
- Nested feature blocks and lock records: they are values, not pointers.
  - The `&b` shared by `AllowRaiseHand`, `AllowVirtualBg` and `AutoGenUserId` (bbbapiwrapper/create.go:85-100) is never written through.
  - The one `lock` of `SetRoomDefaultLockSettings` is written through: `*lock = true` at utils/create_room.go:157 and 161 runs after line 154 or 158 may have stored it in `LockScreenSharing` or `LockWhiteboard`. The only value ever written is `true`, which the pointer already holds, so separate `Some(true)` values give the same result.
  - Writes through a block pointer (for example utils/create_room.go:118 and 211) are modelled as replacing that block's value in the request. The two agree because requests built by `ConvertCreateRequest` share no block with any other object.
- Pointers shared between the request and the server configuration: they are copied as values. `r.MaxParticipants = s.MaxParticipants` and `RoomDuration = s.MaxDuration` (utils/create_room.go:180,183,190,193) make the request point into the configuration. `MaxParticipants`, `RoomDuration`, `LogoutUrl`, `WelcomeMessage` and `PreloadFile` (bbbapiwrapper/create.go:138,141,144,148,164) point into the legacy create request. `ExUserId` and `ProfilePic` (bbbapiwrapper/join.go:37,43) point into the legacy join request. None of these is written through, so values give the same results. Aliasing itself is not modelled.
- Strings: Go strings are byte strings, and the model uses `seq<char>`. Exact matching, `Contains` and `Replace` agree on valid UTF-8. Invalid byte strings are not represented.
- `BbbCreate.CollectMeta`: Go's map iteration order is not modelled. When two raw keys strip to the same key, the contract only promises that one competitor's value wins.
- `Utils.SetCreateRoomDefaultValues`: the source dereferences the notepad, chat, whiteboard, breakout and encryption blocks without nil checks (utils/create_room.go:117-139). The model therefore requires them (`PolicyBlocksPresent`). `PrepareDefaultRoomFeatures` establishes them (`PreparedHasPolicyBlocks`).
- `Utils.SetRoomDefaultLockSettings`: the source dereferences the lock record without a nil check (utils/create_room.go:152-160). The model therefore requires `defaultLockSettings.Some?`.
- `Utils.SetDefaultRoomSettings`: the source dereferences the breakout block without a nil check (utils/create_room.go:210). The model therefore requires `breakoutRoomFeatures.Some?`.
- `Utils.SetDefaultRoomSettings`: the source reads `*s.MaxParticipants` without a nil check. The model therefore requires a participant cap whenever a breakout cap is configured. A configuration with neither cap meets that requirement only once. The first call stores 16 into its breakout cap, so a second call on the same configuration would read the missing participant cap (see Findings and `Utils.FirstCallBreaksReuse`).
- `BbbCreate.ConvertFeatures`: the source builds the features in one function. The model splits out this helper, which has the same order of steps.
- `CreateMeetingResp`, `JoinMeetingRes`, `PreUploadWhiteboardPostFile`: not modelled. They are wire formats with no logic.
- HTTP query parsing, YAML configuration loading and the room backend: not modelled. They are outside these files.

## Findings

| source | as written | input that shows it | evidently intended | confidence | as-written member | corrected member |
|---|---|---|---|---|---|---|
| utils/create_room.go:206 | a configured breakout cap is replaced by 16 only when the participant cap exceeds 16 | participant cap 10, breakout cap 100, request with 50 breakout rooms: 50 rooms are kept | the comment at line 202 caps breakout rooms at 16, so the configured breakout cap itself should be compared with 16 | not executed | Utils.BreakoutClampExceedsSixteen | Utils.IntendedClampAtMostSixteen |
| utils/create_room.go:205-206 | a configuration without caps gets 16 stored into its breakout cap in place; a later call on it takes the `else if` branch and dereferences the nil participant cap | first call with participant cap and breakout cap both unset; second call with the same configuration | the breakout-cap rule should not read the participant cap, so reusing the configuration is safe | not executed; plausible but unverified, since whether a caller reuses one configuration is not visible in these files | Utils.FirstCallBreaksReuse | Utils.IntendedCapReusable |

`Utils.SetDefaultRoomSettings` keeps the as-written rule (`Utils.EffectiveBreakoutCap`), because callers observe that behaviour. `Utils.IntendedBreakoutCap` is the corrected rule, and `Utils.IntendedClampAtMostSixteen` proves the 16-room ceiling for it.
