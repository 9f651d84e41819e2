# conduwuit globals, room creation/upgrade and admin guards, in Dafny

This project models a slice of conduwuit, a Matrix homeserver written in Rust:

- **The globals service.** This covers its persistent data (`src/service/globals/data.rs`) and the service built on it (`src/service/globals/mod.rs`):
  - the event counter kept both in memory and in the `global` tree;
  - the big-endian `u64` settings (last update-check id, database version);
  - the server keypair blob;
  - the stored signing keys of remote servers, and the server's own key injected into them;
  - the supported room versions and the default-version fallback at start-up;
  - the CIDR denylist;
  - locality of user ids;
  - the admin alias and server user;
  - the cache-clearing switch;
  - the key prefixes a sync `watch` listens on.
- **The client-server routes `create_room_route` and `upgrade_room_route`** (`src/client_server/room.rs`). Appending a PDU (`build_and_append_pdu`) is an append to an event log that also records the room's current state.
- **The `sending` admin query** (`src/admin/query/sending.rs`): the table that maps four optional arguments to a destination.
- **The debug admin commands** (`src/admin/debug/commands.rs`), as follows:
  - the fenced-code-block guard and payload;
  - the refusals of the federation commands;
  - the outlier flag of `get-pdu`;
  - the fetch/tally loop of `get-remote-pdu-list`;
  - the state map that `force-set-room-state-from-server` hands to state resolution.

Everything is immutable datatypes and pure functions, except for two methods:

- the CIDR check;
- the `get-remote-pdu-list` fetch loop.

Calls into code that is not modelled are parameters of the model. This covers:

- ruma's identifier and room-name validation;
- serde deserialisation;
- Ed25519 DER parsing;
- the timeline lookups;
- the federation fetch;
- `from_id_val`;
- `get_or_create_shortstatekey`.

Files and modules:

| file | module | contents |
|---|---|---|
| `wrappers.dfy` | `Wrappers` | `Option`, `Result` |
| `core.dfy` | `Core` | identifiers, JSON values, room versions, the error type |
| `seqs.dfy` | `Seqs` | split-at-first (`splitn(2, ..)`), split-all and join, with their round trips |
| `text.dfy` | `Text` | Rust's `trim` and `starts_with` |
| `bytes.dfy` | `Bytes` | `u64`, `wrapping_add`, the 8-byte big-endian codec |
| `globals_data.dfy` | `GlobalsData` | `data.rs` |
| `globals.dfy` | `Globals` | `mod.rs` |
| `room.dfy` | `Room` | `room.rs` |
| `admin_sending.dfy` | `AdminSending` | `sending.rs` |
| `admin_debug.dfy` | `AdminDebug` | `debug/commands.rs` |

Notes on the modelling:

- **Codebase age of `room.rs`.** `room.rs` comes from an older codebase than the other files: it is the conduit-era `r0` route with a database guard. It is modelled as written.
- **Room versions.** Room creation always creates a version 6 room, and an upgrade accepts only version 6 as a target.
- **Event ids.** An event's id is its position in the log. The upgrade's predecessor link therefore names the tombstone by that position.
- **Fresh room ids.** A freshly generated room id is part of the request.
- **Missing power levels on upgrade.** When the old room has no power-levels event, the route reports it with the message it uses for a missing create event ("Found room without m.room.create event."). The model keeps that message.
- **Counter check.** The debug assertion that the in-memory counter equals the stored one is the precondition `CounterInSync` of `next_count` and `current_count`. The model proves that every operation preserves it.
- **`utils::u64_from_bytes`.** It is not part of this model. It is taken to accept exactly eight bytes, big-endian, and to reject every other length.
- **`default_default_room_version`.** It is not part of this model. It is the parameter `fallback` of `Build`.

## Model

| member | source | states |
|---|---|---|
| Bytes.WrappingAdd | src/service/globals/data.rs:67 | `wrapping_add` on `u64`: the exact sum below 2^64, the sum minus 2^64 otherwise |
| Bytes.U64FromBytes | src/service/globals/data.rs:85-90 | a stored integer decodes iff it is exactly eight bytes, and then re-encodes to the same bytes |
| Bytes.U64RoundTrip | src/service/globals/data.rs:337-346 | reading back the eight big-endian bytes written for a `u64` gives the same `u64` |
| Seqs.SplitFirst | src/service/globals/data.rs:256 | `splitn(2, 0xFF)`: the first part holds no separator; there is a second part iff the separator occurs, and then the input is first part, separator, second part |
| Seqs.SplitFirstOfConcat | src/service/globals/data.rs:256-271 | a blob laid out as `a ++ [0xFF] ++ b`, with no `0xFF` in `a`, splits into exactly `a` and `b`, even when `b` contains `0xFF` |
| Seqs.SplitAllOfJoin | src/admin/debug/commands.rs:70 | joining separator-free parts and splitting at the separator gives the parts back |
| Seqs.JoinOfSplitAll | src/admin/debug/commands.rs:70 | splitting at a separator and joining again gives the original sequence |
| Text.Trim | src/admin/debug/commands.rs:63 | `trim` yields the middle of the line between a whitespace-only prefix and a whitespace-only suffix, starting and ending with non-whitespace |
| GlobalsData.ReadU64 | src/service/globals/data.rs:85-99 | a missing counter/update-check id reads as 0; a stored value must be exactly eight bytes and is their big-endian value; otherwise the given error |
| GlobalsData.WriteU64 | src/service/globals/data.rs:101-106 | after storing a `u64` under a key it reads back as that value, and every other key of `global` is unchanged |
| GlobalsData.NewData | src/service/globals/data.rs:39-57 | start-up loads the persisted counter (0 when absent) and fails iff it is not eight bytes; the loaded counter is in sync with storage |
| GlobalsData.NextCount | src/service/globals/data.rs:59-71 | `next_count` returns the previous counter plus one modulo 2^64, persists it, keeps memory and storage in sync, and touches no other key |
| GlobalsData.CurrentCount | src/service/globals/data.rs:73-83 | `current_count` returns exactly the persisted counter |
| GlobalsData.Counts | src/service/globals/data.rs:59-71 | the values of `k` successive `next_count` calls are the counter's next `k` wrapping successors |
| GlobalsData.SuccessiveCountsValues | src/service/globals/data.rs:67 | the `i`-th value handed out from counter `c` is `c + i + 1` modulo 2^64 |
| GlobalsData.CountsAreDistinct | src/service/globals/data.rs:59-71 | up to 2^64 successive `next_count` calls never return the same value twice |
| GlobalsData.UpdateCheckForUpdatesId | src/service/globals/data.rs:92-106 | after `update_check_for_updates_id(id)`, `last_check_for_updates_id` returns `id`; nothing else changes and the counter stays in sync |
| GlobalsData.BumpDatabaseVersion | src/service/globals/data.rs:337-346 | after `bump_database_version(v)`, `database_version` returns `v`; nothing else changes and the counter stays in sync |
| GlobalsData.DecodeKeypair | src/service/globals/data.rs:256-276 | bad UTF-8 in the version fails first, then a blob with no `0xFF` is the format error, then a key `from_der` rejects is "Private or public keys are invalid."; otherwise the blob decodes to the version and key around the first `0xFF` with the public key `from_der` yields |
| GlobalsData.DecodeKeypairOfLayout | src/service/globals/data.rs:256-271 | a blob written as version bytes, `0xFF`, key decodes to exactly that version and key |
| GlobalsData.LoadKeypair | src/service/globals/data.rs:246-276 | a stored blob is decoded unchanged; with none stored the generated blob is stored first and decoded; no other key changes |
| GlobalsData.RemoveKeypair | src/service/globals/data.rs:278 | the keypair entry is gone and every other key of `global` is unchanged |
| GlobalsData.OtherKeysKeepCounterInSync | src/service/globals/data.rs:62-65 | a write to any key of `global` other than the counter keeps the counter in sync |
| GlobalsData.AllKeys | src/service/globals/data.rs:325-332 | the key ids are the union of current and retired ids; a retired key wins on a shared id; other ids keep their current key |
| GlobalsData.SigningKeysFor | src/service/globals/data.rs:319-335 | stored keys give current plus retired keys (retired winning); nothing stored or undecodable gives the empty map |
| GlobalsData.ExistingKeys | src/service/globals/data.rs:284-291 | with nothing decodable stored, `add_signing_key` starts from empty key sets |
| GlobalsData.AddSigningKey | src/service/globals/data.rs:280-315 | the stored key sets of `origin` become the existing ones extended by the incoming ones (incoming winning on equal ids), other servers untouched; the returned map is what `signing_keys_for` reads back, and each id's key follows the precedence retired-incoming, retired-existing, current-incoming, current-existing |
| GlobalsData.ClearedCaches | src/service/globals/data.rs:231-244 | the auth-chain cache is cleared iff amount > 1, the appservice cache iff amount > 2, the timeline-count cache iff amount > 3 |
| GlobalsData.ClearedCachesGrow | src/service/globals/data.rs:231-244 | a larger amount clears a superset of caches, and `amount` clears `min(max(amount - 1, 0), 3)` of them |
| GlobalsData.RoomsWatchers | src/service/globals/data.rs:134-175 | each joined room contributes five watches, in room order: PDUs by short room id, typing, read receipts, key changes, room account data |
| GlobalsData.WatchPrefixes | src/service/globals/data.rs:109-195 | `watch` races, in order: the to-device tree on `user 0xFF device 0xFF`; the joined, invite-state, left-state, notification-count and highlight-count trees on `user 0xFF`; for each joined room the PDU tree on its short id, its typing update, the read-receipt and key-change trees on `room 0xFF` and the account-data tree on `room 0xFF user 0xFF`; then the account-data tree on `0xFF user 0xFF`, the key-change tree on `user 0xFF`, the one-time-key tree on the bare user bytes, and the shutdown signal |
| GlobalsData.WatchPrefixesDecode | src/service/globals/data.rs:139-173 | the room-account-data prefix splits back into room id and user id, and the PDU prefix decodes back to the short room id |
| Globals.RoomVersionLists | src/service/globals/mod.rs:86-95 | the stable versions are exactly 6 to 11 and the unstable ones exactly 2 to 5 |
| Globals.SupportedRoomVersions | src/service/globals/mod.rs:267-274 | the stable list in order, followed by the unstable list iff unstable versions are allowed, and no other version |
| Globals.ChooseDefaultRoomVersion | src/service/globals/mod.rs:129-135 | the configured default is kept iff it is supported; otherwise it is replaced by the fallback |
| Globals.ChooseDefaultRoomVersionIdempotent | src/service/globals/mod.rs:129-135 | with a supported fallback, applying the fallback rule again changes nothing |
| Globals.Build | src/service/globals/mod.rs:64-138 | a malformed stored counter fails before anything else; otherwise start-up succeeds iff the loaded keypair decodes, and then the service holds that keypair, the stored signing keys and the database as loaded, fixes the version lists, admin alias, server user and denylist, leaves the counter in sync, and keeps or replaces the default room version by the fallback rule; a keypair that does not decode is deleted and its error returned |
| Globals.BuildKeypairOutcome | src/service/globals/mod.rs:64-76 | with a readable counter, a stored blob that decodes becomes the keypair with nothing written; one that does not decode is deleted and its error returned; with none stored the generated blob is stored and used, or deleted when it does not decode |
| Globals.SigningKeysFor | src/service/globals/mod.rs:291-305 | for another server, the stored keys unchanged; for this server, the stored keys plus `ed25519:<version>` mapped to the own public key, replacing any stored entry with that id; the `expect` panics (`None`) iff the request is for this server and `ed25519:<version>` is not a valid key id |
| Globals.ValidCidrRange | src/service/globals/mod.rs:315-323 | an address is valid iff no denylisted range includes it |
| Globals.UserIsLocalIff | src/service/globals/mod.rs:326-333 | `localpart:server` is local iff `server` is this server's name |
| Globals.AdminIdentitiesAreLocal | src/service/globals/mod.rs:123-126 | the server user `@conduit:<name>` is local and the admin alias `#admins:<name>` names this server |
| Room.Append | src/client_server/room.rs:74-87 | appending a PDU extends the log by exactly that event, whose id is its position, and makes a state event its room's current state for its type and state key |
| Room.AppendAllFrame | src/client_server/room.rs:74-293 | appending events leaves every state entry none of them writes as it was |
| Room.AppendAllWrites | src/client_server/room.rs:74-293 | after appending a sequence of events, a state entry holds the content of the last event that wrote it |
| Room.EffectivePreset | src/client_server/room.rs:114-122 | an explicit preset is used; otherwise PublicChat iff the visibility is Public, and never TrustedPrivateChat |
| Room.MergeOverride | src/client_server/room.rs:147-150 | each override key replaces the generated field of that name; every other generated field is kept |
| Room.PowerLevelsContent | src/client_server/room.rs:124-151 | fails with BadJson exactly when the override is present and not a JSON object |
| Room.PowerLevelsContentFields | src/client_server/room.rs:124-151 | the power levels hold every override key with its value, every other default with its default, and (unless overridden) `users` giving exactly the creator, plus the invitees under TrustedPrivateChat, level 100 |
| Room.JoinRuleFor | src/client_server/room.rs:169-192 | the join rule is public iff the preset is PublicChat, invite otherwise |
| Room.GuestAccessFor | src/client_server/room.rs:212-236 | guest access is forbidden iff the preset is PublicChat, can-join otherwise |
| Room.KeptEventsSpec | src/client_server/room.rs:245-248 | the appended initial-state events are the entries minus the encryption events when encryption is disallowed (all of them, unchanged, otherwise), and they write no state entry the entries do not |
| Room.KeptEventsConcat | src/client_server/room.rs:239-253 | the entries are filtered one by one in request order: the kept events of `a + b` are those of `a` followed by those of `b`, and one entry is kept iff it is not a disallowed encryption event |
| Room.FirstUnparsed | src/client_server/room.rs:239-243 | the position of the first initial-state entry that does not deserialise, all entries before it deserialising |
| Room.AppendInitialState | src/client_server/room.rs:238-252 | succeeds iff every entry deserialises; a bad entry stops with InvalidParam after the kept entries before it were appended |
| Room.AliasFor | src/client_server/room.rs:56-58 | the requested alias is `#`, the localpart, `:`, the server name |
| Room.RequestedAlias | src/client_server/room.rs:50-67 | an invalid alias is InvalidParam, an alias already in use is RoomInUse, otherwise the alias is accepted |
| Room.InitialiseRoom | src/client_server/room.rs:238-293 | a bad initial-state entry stops with InvalidParam after the kept entries before it; then an invalid name stops with "Name is invalid." after all kept entries; otherwise the kept entries, the name and the topic are appended |
| Room.PopulateWith | src/client_server/room.rs:69-293 | with the power levels known: success iff every entry parses and the name is valid, appending exactly the creation events; each failure leaves exactly the founding, preset and kept-before-failure events appended |
| Room.PopulateRoom | src/client_server/room.rs:69-293 | succeeds iff the override is an object, every initial-state entry parses and the name is valid, then exactly the creation events are appended in order; a bad override gives BadJson after only create and join; a bad entry gives InvalidParam after the preset events and the kept entries before it; an invalid name gives "Name is invalid." after all kept entries |
| Room.Register | src/client_server/room.rs:301-308 | the accepted alias now resolves to the new room, and a public room joins the directory; the log and state are untouched |
| Room.CreateWithAlias | src/client_server/room.rs:69-314 | on success the new room id is returned, the alias registered and a public room published; on failure aliases and directory are untouched |
| Room.CreateRoom | src/client_server/room.rs:32-315 | succeeds iff the alias is accepted, the override is an object, every initial-state entry parses and the name is valid; a rejected alias fails with nothing appended; on success the log gains create (version 6), join, power levels, join rules, history, guest access, the kept initial state, name, topic, in this order; failures never change aliases or directory |
| Room.CreateRoomOnlyAppends | src/client_server/room.rs:74-293 | room creation never removes or rewrites an existing event, whether it succeeds or fails |
| Room.FoundingEventInEffect | src/client_server/room.rs:74-236 | a founding or preset event stays in effect after creation unless a later initial-state, name or topic event writes the same state entry |
| Room.CreatorJoinsNewRoom | src/client_server/room.rs:89-110 | after creation the creator's membership is `join`, unless an initial-state entry replaced it |
| Room.PresetStateInEffect | src/client_server/room.rs:169-236 | after creation history is shared and join rules and guest access follow the preset, except where initial state replaced them |
| Room.CreatedRoomPopulated | src/client_server/room.rs:74-308 | whenever creation can succeed it returns the new room id and leaves the room state that appending the creation events produces |
| Room.LockDownLevel | src/client_server/room.rs:515-519 | the new level is `max(50, users_default + 1)`: at least 50 and above `users_default` |
| Room.PowerLevelField | src/client_server/room.rs:503-513 | an absent power-level field takes its default, an integer field is that level, any other value fails to deserialise |
| Room.LockDownPowerLevels | src/client_server/room.rs:502-521 | `events_default` and `invite` both become the lock-down level, every other field is kept; fails iff one of the three levels is not an integer |
| Room.TransferredEvents | src/client_server/room.rs:474-494 | every copied event is of a listed type with state key "" and the old room's content, and every listed type the old room has is copied |
| Room.TransferredEventsConcat | src/client_server/room.rs:474-494 | the copy follows the list order: the events for `a + b` are those for `a` followed by those for `b` |
| Room.TransferredEventsOne | src/client_server/room.rs:475-478 | one type yields its event with the old room's content iff the old room has it, and nothing otherwise |
| Room.CopyTransferable | src/client_server/room.rs:474-494 | the copy loop appends exactly the transferred events into the replacement and changes nothing in the old room |
| Room.CopyTransferableCopies | src/client_server/room.rs:474-494 | into a different room, each present transferable state event arrives with the same content |
| Room.MoveAliases | src/client_server/room.rs:496-500 | every alias of the old room now resolves to the replacement; every other alias is untouched |
| Room.OldRoomFederates | src/client_server/room.rs:397-408 | a missing create event and a malformed one are database errors; otherwise its `federate` flag |
| Room.LockedDownContent | src/client_server/room.rs:502-513 | a missing power-levels event is a database error with the create-event message; a malformed one is the invalid-event error; otherwise the locked-down levels |
| Room.FoundingOfReplacement | src/client_server/room.rs:416-459 | the replacement's create and join events are never among the transferable types |
| Room.FillReplacement | src/client_server/room.rs:416-500 | the replacement gets its create event, the join and the copied state in that order; the old room's aliases move; the old room's power levels are untouched |
| Room.ReplaceRoom | src/client_server/room.rs:416-537 | after filling the replacement, the old room's locked-down power levels are appended iff they can be read; otherwise that error |
| Room.Tombstone | src/client_server/room.rs:377-395 | the old room gets a tombstone naming the replacement; nothing the upgrade reads later from the old room changes |
| Room.UpgradeRoom | src/client_server/room.rs:350-545 | succeeds iff the target is version 6 and the old room's create and power-levels events can be read; any other target is refused with nothing appended; a bad create event fails after the tombstone; success appends tombstone, create, join, copies and lock-down in order and moves the aliases; errors are the three documented ones |
| Room.UpgradeResult | src/client_server/room.rs:502-537 | whenever an upgrade can succeed it returns the replacement id and ends by writing the locked-down power levels into the old room after filling the replacement |
| Room.FillReplacementCopies | src/client_server/room.rs:474-494 | filling a distinct replacement copies every transferable state event the old room has |
| Room.UpgradeLinksRooms | src/client_server/room.rs:377-459 | the tombstone is in the old room and names the replacement; the replacement's create event names the old room and the tombstone as predecessor; the sender's join follows |
| Room.UpgradeLocksDownOldRoom | src/client_server/room.rs:515-537 | after an upgrade the old room's `events_default` and `invite` are equal, at least 50 and above `users_default`, and no other field is added |
| Room.UpgradeCopiesState | src/client_server/room.rs:474-494 | after an upgrade the replacement holds each transferable state event the old room had |
| Room.UpgradeOnlyAppends | src/client_server/room.rs:377-537 | an upgrade only appends to the event log, whether or not it succeeds |
| AdminSending.SelectDestination | src/admin/query/sending.rs:25-74 | no arguments or all four give the (respective) usage text; a non-empty appservice id alone selects Appservice, a server name alone Normal, a user id with a non-empty push key Push, and nothing else selects a destination |
| AdminSending.ArgumentsFor | src/admin/query/sending.rs:32-62 | the arguments that name a destination are neither none nor all four |
| AdminSending.SelectArgumentsFor | src/admin/query/sending.rs:32-62 | every addressable destination is selected by exactly its own fields |
| AdminSending.SelectedIsNamed | src/admin/query/sending.rs:32-74 | a selected destination is addressable and was named by exactly its own fields |
| AdminSending.Sending | src/admin/query/sending.rs:19-149 | a query runs iff the table selects a destination, for that destination; otherwise the table's text is the reply |
| AdminSending.SubcommandsAgree | src/admin/query/sending.rs:84-149 | `QueuedRequests` and `ActiveRequestsFor` accept and refuse the same arguments and query the same destination |
| AdminDebug.CodeBlockLines | src/admin/debug/commands.rs:63-70 | the body is rejected iff it has fewer than two lines, or its trimmed first line does not start with the fence, or its trimmed last line is not the fence; otherwise the lines strictly between |
| AdminDebug.CodeBlockPayload | src/admin/debug/commands.rs:416-423 | the payload exists iff the guard passes, else the code-block reply |
| AdminDebug.TrimKeepsFence | src/admin/debug/commands.rs:63 | a line that starts with the fence still starts with it after trimming |
| AdminDebug.FencedPasses | src/admin/debug/commands.rs:63-70 | a body of opening fence (with any language tag), lines, closing fence passes the guard, and its payload is the lines joined with newlines |
| AdminDebug.PayloadSplitsIntoLines | src/admin/debug/commands.rs:70 | splitting a fenced body's payload at newlines gives back the typed lines |
| AdminDebug.GuardedBodyShape | src/admin/debug/commands.rs:63-70 | the payload of any body that passes the guard is the lines strictly between the fences joined with newlines; a body of just the two fences has the empty payload; a body of three or more newline-free lines is its opening line, its payload's lines and its closing line |
| AdminDebug.PingRefusal | src/admin/debug/commands.rs:298-303 | `ping` refuses iff the target is this server |
| AdminDebug.RemotePduRefusal | src/admin/debug/commands.rs:184-194 | `get-remote-pdu` refuses iff federation is off (checked first) or the target is this server |
| AdminDebug.RemotePduListRefusal | src/admin/debug/commands.rs:124-142 | `get-remote-pdu-list` refuses when federation is off, then for this server, and only then for a body that is not a code block |
| AdminDebug.GetPdu | src/admin/debug/commands.rs:92-117 | a non-outlier hit is reported as such; only on a miss the outlier-inclusive lookup is used and its hit is flagged outlier; not found iff both miss |
| AdminDebug.PduHeading | src/admin/debug/commands.rs:106-114 | the outlier heading is used iff the PDU is an outlier |
| AdminDebug.GetPduAgainstStore | src/admin/debug/commands.rs:92-102 | against a PDU store, `get-pdu` finds exactly the stored PDUs with their JSON and flags exactly the outliers |
| AdminDebug.ParsedIdsSpec | src/admin/debug/commands.rs:144-150 | the parsed ids are exactly the ids of lines that parse; unparsable lines are dropped, none when every line parses |
| AdminDebug.ParsedIdsConcat | src/admin/debug/commands.rs:149-150 | `filter_map` keeps line order and repeats: the ids of `a + b` are those of `a` followed by those of `b` |
| AdminDebug.ParsedIdsOne | src/admin/debug/commands.rs:149 | one line gives its id iff it parses, and nothing otherwise |
| AdminDebug.FirstFailure | src/admin/debug/commands.rs:155-173 | none iff every fetch succeeds; otherwise the first failing position |
| AdminDebug.FetchAll | src/admin/debug/commands.rs:152-177 | with `force` every id is fetched and successes plus failures equal the number of ids; without it ids are fetched up to and including the first failure, whose error ends the command |
| AdminDebug.GetRemotePduList | src/admin/debug/commands.rs:121-178 | a refusal fetches nothing; otherwise the parsed ids of the lines between the fences are fetched as `FetchAll` states |
| AdminDebug.CollectState | src/admin/debug/commands.rs:577-603 | the state map fails iff a validated PDU fails `from_id_val`, with the bad-server-response error; skipped PDUs are ignored |
| AdminDebug.CollectStateLastWins | src/admin/debug/commands.rs:582-602 | every short state key maps to the event id of the last PDU with a state key that wrote it; keys nobody wrote keep their earlier value |
| AdminDebug.ForceSetRoomState | src/admin/debug/commands.rs:520-626 | a server not in the room gets the not-participating reply; a missing latest PDU and a failed remote request are errors; a validated PDU that `from_id_val` rejects ends the command with that "Invalid PDU" bad-server-response error; otherwise state resolution receives exactly the keys some PDU wrote, each mapped to the event id of the last PDU that wrote it |

## Left out

- I/O, the network and time. This covers federation requests, DNS, the database engine, the sync `watch` race (only the watched prefixes are modelled), query timing and reply formatting.
- Concurrency. This covers the room mutexes, the counter's `RwLock`, the state-resolution mutex and the rate-limiter maps. Each modelled operation runs atomically.
- Foreign code. The following are parameters of the model:
  - JSON (de)serialisation;
  - ruma's identifier, alias and room-name validation;
  - Ed25519 key parsing, signing and verification;
  - reference hashing;
  - `EnvFilter` parsing.
- `parse-pdu`, `sign-json` and `verify-json` beyond the code-block guard and payload. What they do with the payload is foreign JSON and crypto work.
- `get-remote-pdu` beyond its refusals. Its fetch is the `fetch` parameter of `get-remote-pdu-list`: the `Result` that `get_remote_pdu` returns.
  - Its `Err` comes only from a response whose PDU is not canonical JSON, or from a failing backfill (`src/admin/debug/commands.rs:208-214`, `248-253`).
  - A remote server that lacks the PDU (`262-264`) and a PDU that fails to parse (`223-231`) are `Ok` replies. The tally therefore counts them as successes.
  - The admin message and warning that `force` mode sends for each failure (`159-165`) are not modelled.
- `expect` panics assumed unreachable. The model leaves out three, which cannot fire on a consistent database with a valid server name:
  - `watch`'s `expect("room exists")` on the short room id (`src/service/globals/data.rs:141-146`). A `JoinedRoom` always carries its short id.
  - the `admin_alias` `expect` in `build` (`src/service/globals/mod.rs:123-124`).
  - the `server_user` `expect` in `build` (`src/service/globals/mod.rs:125-126`).
- State resolution, `save_state`, `force_state`, the auth-chain loop and the signing-key fetch of `force-set-room-state-from-server`. The model stops at the state map handed to resolution. A failing key fetch is folded into the failed-response case.
- The outlier writes (`add_pdu_outlier`) of `force-set-room-state-from-server`. They are database writes whose errors the model does not distinguish.
- Invitations after room creation (`src/client_server/room.rs:295-299`). `invite_helper` is not part of this model, and its result is ignored by the route.
- Auth checks and hashing inside `build_and_append_pdu`. `build_and_append_pdu` is an append that always succeeds. Displayname, avatar and blurhash lookups for the join events are dropped.
- Room.LockDownPowerLevels: only `users_default`, `events_default` and `invite` are checked when the stored power levels are deserialised, and the other fields are kept as stored JSON rather than re-serialised through ruma's type.
- Room.LockDownLevel: `js_int` overflow of `users_default + 1` is not modelled. Integers are unbounded.
- AdminDebug.FetchAll: the `usize` saturating additions are plain additions. The counts never exceed the number of ids.
- Globals.Build: the JWT key, resolver and HTTP client are not modelled, and parsing of the configured CIDR ranges happens before the model. A panic on a malformed stored counter (`Data::new`'s `expect`) is modelled as an error result.
- GlobalsData.NextCount: a failing database write is not modelled. Writes always succeed.
- Memory statistics, backups, cleanup and the plain configuration getters of the globals service. They are I/O or one-line field reads.
