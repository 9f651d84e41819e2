/** Room creation and room upgrade: the decisions behind `create_room_route` and
    `upgrade_room_route`, with appending a PDU reduced to appending to an event log. */
module Room {
  import opened Wrappers
  import opened Core
  import opened Seqs

  datatype EventType =
    | RoomCreate | RoomMember | RoomPowerLevels | RoomJoinRules | RoomHistoryVisibility
    | RoomGuestAccess | RoomEncryption | RoomName | RoomAvatar | RoomTopic | RoomServerAcl
    | RoomTombstone | OtherEventType(name: string)

  datatype Visibility = Public | Private | CustomVisibility(name: string)
  datatype Preset = PrivateChat | PublicChat | TrustedPrivateChat
  datatype JoinRule = JoinPublic | JoinInvite
  datatype GuestAccess = CanJoin | Forbidden
  datatype HistoryVisibility = Invited | Joined | Shared | WorldReadable
  datatype Membership = Join

  /** The room a room replaces, and its tombstone event (by position in the event log). */
  datatype PreviousRoom = PreviousRoom(roomId: RoomId, tombstone: nat)

  /** Event contents, typed where the routes build them, as JSON where they pass JSON through. */
  datatype Content =
    | CreateContent(creator: UserId, federate: bool, predecessor: Option<PreviousRoom>, roomVersion: RoomVersion)
    | MemberContent(membership: Membership, isDirect: Option<bool>)
    | JsonContent(fields: map<string, Json>)
    | JoinRulesContent(rule: JoinRule)
    | HistoryVisibilityContent(visibility: HistoryVisibility)
    | GuestAccessContent(access: GuestAccess)
    | NameContent(name: string)
    | TopicContent(topic: string)
    | TombstoneContent(body: string, replacementRoom: RoomId)

  datatype PduBuilder = PduBuilder(eventType: EventType, content: Content, stateKey: Option<string>)

  datatype Appended = Appended(roomId: RoomId, sender: UserId, pdu: PduBuilder)

  /** The part of the database the routes touch: the event log, each room's current state by
      (type, state key), the alias table and the public room directory. */
  datatype RoomDb = RoomDb(
    log: seq<Appended>,
    state: map<RoomId, map<(EventType, string), Content>>,
    aliases: map<string, RoomId>,
    publicRooms: set<RoomId>)

  const CREATOR_POWER_LEVEL := 100
  const TOMBSTONE_BODY := "This room has been replaced"
  const INVALID_ALIAS := "Invalid alias."
  const ALIAS_EXISTS := "Room alias already exists."
  const INVALID_OVERRIDE := "Invalid power_level_content_override."
  const INVALID_INITIAL_STATE := "Invalid initial state event."
  const INVALID_NAME := "Name is invalid."
  const UNSUPPORTED_VERSION := "This server does not support that room version."
  const MISSING_CREATE := "Found room without m.room.create event."
  const INVALID_ROOM_EVENT := "Invalid room event in database."

  /** The state types an upgrade copies to the replacement room, in copy order. */
  const TRANSFERABLE_STATE_EVENTS: seq<EventType> :=
    [ RoomServerAcl, RoomEncryption, RoomName, RoomAvatar, RoomTopic, RoomGuestAccess,
      RoomHistoryVisibility, RoomJoinRules, RoomPowerLevels ]

  /** `room_state_get`. */
  function RoomStateGet(db: RoomDb, roomId: RoomId, eventType: EventType, stateKey: string): Option<Content>
  {
    if roomId in db.state && (eventType, stateKey) in db.state[roomId] then Some(db.state[roomId][(eventType, stateKey)])
    else None
  }


  /** `build_and_append_pdu`: the event goes to the end of the log, a state event becomes its
      room's current state for its (type, state key), and the new event's id is its position. */
  function Append(db: RoomDb, sender: UserId, roomId: RoomId, pdu: PduBuilder): (r: (RoomDb, nat))
    ensures r.0.log == db.log + [Appended(roomId, sender, pdu)]
    ensures r.1 == |db.log|
    ensures r.0.aliases == db.aliases && r.0.publicRooms == db.publicRooms
    ensures pdu.stateKey.Some? ==> RoomStateGet(r.0, roomId, pdu.eventType, pdu.stateKey.value) == Some(pdu.content)
  {
    var log := db.log + [Appended(roomId, sender, pdu)];
    match pdu.stateKey
    case None => (db.(log := log), |db.log|)
    case Some(k) =>
      var roomState := if roomId in db.state then db.state[roomId] else map[];
      (db.(log := log, state := db.state[roomId := roomState[(pdu.eventType, k) := pdu.content]]), |db.log|)
  }

  /** Appending an event changes no state entry other than the one it is the state event for. */
  lemma AppendFrame(db: RoomDb, sender: UserId, roomId: RoomId, pdu: PduBuilder, room: RoomId, t: EventType, k: string)
    requires room != roomId || pdu.stateKey != Some(k) || t != pdu.eventType
    ensures RoomStateGet(Append(db, sender, roomId, pdu).0, room, t, k) == RoomStateGet(db, room, t, k)
  {
  }

  /** Appending a state event. */
  function AppendState(db: RoomDb, sender: UserId, roomId: RoomId, eventType: EventType, stateKey: string, content: Content)
    : (db': RoomDb)
    ensures db'.log == db.log + [Appended(roomId, sender, PduBuilder(eventType, content, Some(stateKey)))]
    ensures db'.aliases == db.aliases && db'.publicRooms == db.publicRooms
    ensures RoomStateGet(db', roomId, eventType, stateKey) == Some(content)
    ensures forall room, t, k :: room != roomId || t != eventType || k != stateKey ==>
      RoomStateGet(db', room, t, k) == RoomStateGet(db, room, t, k)
  {
    var pdu := PduBuilder(eventType, content, Some(stateKey));
    forall room, t, k | room != roomId || t != eventType || k != stateKey
      ensures RoomStateGet(Append(db, sender, roomId, pdu).0, room, t, k) == RoomStateGet(db, room, t, k)
    {
      AppendFrame(db, sender, roomId, pdu, room, t, k);
    }
    Append(db, sender, roomId, pdu).0
  }

  /** The log entries appending `pdus` to `roomId` as `sender` produces. */
  function AppendedAs(roomId: RoomId, sender: UserId, pdus: seq<PduBuilder>): (r: seq<Appended>)
    ensures |r| == |pdus|
    ensures forall i :: 0 <= i < |pdus| ==> r[i] == Appended(roomId, sender, pdus[i])
    decreases |pdus|
  {
    if |pdus| == 0 then [] else [Appended(roomId, sender, pdus[0])] + AppendedAs(roomId, sender, pdus[1..])
  }

  /** None of `pdus` is a state event for (`t`, `k`). */
  predicate Untouched(pdus: seq<PduBuilder>, t: EventType, k: string)
  {
    forall i :: 0 <= i < |pdus| ==> pdus[i].eventType != t || pdus[i].stateKey != Some(k)
  }

  /** Appending several events in order, one `build_and_append_pdu` call each. */
  function AppendAll(db: RoomDb, sender: UserId, roomId: RoomId, pdus: seq<PduBuilder>): (r: RoomDb)
    ensures r.log == db.log + AppendedAs(roomId, sender, pdus)
    ensures r.aliases == db.aliases && r.publicRooms == db.publicRooms
    decreases |pdus|
  {
    if |pdus| == 0 then db
    else
      var next := Append(db, sender, roomId, pdus[0]).0;
      var tail := AppendedAs(roomId, sender, pdus[1..]);
      assert next.log + tail == db.log + ([Appended(roomId, sender, pdus[0])] + tail);
      AppendAll(next, sender, roomId, pdus[1..])
  }

  /** Appending `a` and then `b` is appending `a + b`. */
  lemma {:induction false} AppendAllConcat(db: RoomDb, sender: UserId, roomId: RoomId, a: seq<PduBuilder>, b: seq<PduBuilder>)
    ensures AppendAll(AppendAll(db, sender, roomId, a), sender, roomId, b) == AppendAll(db, sender, roomId, a + b)
    decreases |a|
  {
    if |a| == 0 {
      assert a + b == b;
    } else {
      assert (a + b)[0] == a[0];
      assert (a + b)[1..] == a[1..] + b;
      AppendAllConcat(Append(db, sender, roomId, a[0]).0, sender, roomId, a[1..], b);
    }
  }

  /** Appending events leaves every state entry none of them writes as it was. */
  lemma {:induction false} AppendAllFrame(db: RoomDb, sender: UserId, roomId: RoomId, pdus: seq<PduBuilder>,
                                          room: RoomId, t: EventType, k: string)
    requires room != roomId || Untouched(pdus, t, k)
    ensures RoomStateGet(AppendAll(db, sender, roomId, pdus), room, t, k) == RoomStateGet(db, room, t, k)
    decreases |pdus|
  {
    if |pdus| > 0 {
      assert room != roomId || pdus[0].eventType != t || pdus[0].stateKey != Some(k);
      assert room != roomId || Untouched(pdus[1..], t, k) by {
        if room == roomId {
          forall i | 0 <= i < |pdus| - 1 ensures pdus[1..][i].eventType != t || pdus[1..][i].stateKey != Some(k) {
            assert pdus[1..][i] == pdus[i + 1];
          }
        }
      }
      AppendAllFrame(Append(db, sender, roomId, pdus[0]).0, sender, roomId, pdus[1..], room, t, k);
      AppendFrame(db, sender, roomId, pdus[0], room, t, k);
    }
  }

  // ---------------------------------------------------------------- room creation

  datatype CreateRequest = CreateRequest(
    sender: UserId,
    roomAliasName: Option<string>,
    preset: Option<Preset>,
    visibility: Visibility,
    invite: seq<UserId>,
    powerLevelContentOverride: Option<Json>,
    /** Each entry as a `PduBuilder`, or `None` for an entry that does not deserialise as one. */
    initialState: seq<Option<PduBuilder>>,
    name: Option<string>,
    topic: Option<string>,
    isDirect: bool,
    federate: bool,
    predecessor: Option<PreviousRoom>)

  /** What the route takes from its environment: the server name, the encryption switch, the
      freshly generated room id, the JSON fields other than `users` of ruma's default
      power-levels content, and ruma's validation of aliases and room names. */
  datatype CreateContext = CreateContext(
    serverName: ServerName,
    allowEncryption: bool,
    newRoomId: RoomId,
    powerLevelDefaults: map<string, Json>,
    aliasIsValid: string -> bool,
    nameIsValid: string -> bool)

  /** Without an explicit preset, a public room is a public chat and anything else a private chat. */
  function EffectivePreset(preset: Option<Preset>, visibility: Visibility): (r: Preset)
    ensures preset.Some? ==> r == preset.value
    ensures preset.None? ==> (r == PublicChat <==> visibility == Public)
    ensures preset.None? ==> r != TrustedPrivateChat
  {
    match preset
    case Some(p) => p
    case None =>
      match visibility
      case Public => PublicChat
      case Private => PrivateChat
      case CustomVisibility(_) => PrivateChat
  }

  /** The `users` map of the initial power levels: the creator, and under a trusted private chat
      every invitee as well, all at 100. */
  function PowerLevelUsers(sender: UserId, invite: seq<UserId>, preset: Preset): map<UserId, int>
  {
    var members := {sender} + (if preset == TrustedPrivateChat then set u | u in invite else {});
    map u | u in members :: CREATOR_POWER_LEVEL
  }

  function UsersJson(users: map<UserId, int>): Json
  {
    JObject(map u | u in users :: JInt(users[u]))
  }

  /** Each top-level key of the override replaces the generated field of that name; every other
      generated field is kept. */
  function MergeOverride(generated: map<string, Json>, override: map<string, Json>): (r: map<string, Json>)
    ensures r.Keys == generated.Keys + override.Keys
    ensures forall k :: k in override ==> r[k] == override[k]
    ensures forall k :: k in generated && k !in override ==> r[k] == generated[k]
  {
    generated + override
  }

  /** The content of the initial power-levels event: ruma's defaults with the generated `users`
      map, overridden key by key; `BadJson` when the override does not parse as a JSON object. */
  function PowerLevelsContent(req: CreateRequest, preset: Preset, defaults: map<string, Json>)
    : (r: Result<map<string, Json>, Error>)
    ensures r.Err? <==> req.powerLevelContentOverride.Some? && !req.powerLevelContentOverride.value.JObject?
    ensures r.Err? ==> r.error == BadRequest(BadJson, INVALID_OVERRIDE)
  {
    var generated := defaults["users" := UsersJson(PowerLevelUsers(req.sender, req.invite, preset))];
    match req.powerLevelContentOverride
    case None => Ok(generated)
    case Some(JObject(fields)) => Ok(MergeOverride(generated, fields))
    case Some(_) => Err(BadRequest(BadJson, INVALID_OVERRIDE))
  }

  /** What the initial power levels hold: every override key with the override's value; every
      other default key with its default; and, unless the override replaces it, a `users` object
      giving exactly the creator, plus the invitees under a trusted private chat, level 100. */
  lemma PowerLevelsContentFields(req: CreateRequest, preset: Preset, defaults: map<string, Json>)
    requires PowerLevelsContent(req, preset, defaults).Ok?
    ensures var content := PowerLevelsContent(req, preset, defaults).value;
      var override := if req.powerLevelContentOverride.Some? then req.powerLevelContentOverride.value.fields else map[];
      && content.Keys == defaults.Keys + {"users"} + override.Keys
      && (forall k :: k in override ==> content[k] == override[k])
      && (forall k :: k in defaults && k != "users" && k !in override ==> content[k] == defaults[k])
      && ("users" !in override ==>
            && content["users"].JObject?
            && (forall u :: u in content["users"].fields <==> u == req.sender || (preset == TrustedPrivateChat && u in req.invite))
            && (forall u :: u in content["users"].fields ==> content["users"].fields[u] == JInt(CREATOR_POWER_LEVEL)))
  {
    var users := PowerLevelUsers(req.sender, req.invite, preset);
    assert forall u :: u in users <==> u == req.sender || (preset == TrustedPrivateChat && u in req.invite);
  }

  /** A public chat is open to everyone; every other preset is invite-only. */
  function JoinRuleFor(preset: Preset): (r: JoinRule)
    ensures r == JoinPublic <==> preset == PublicChat
  {
    if preset == PublicChat then JoinPublic else JoinInvite
  }

  /** Guests are kept out of a public chat and may join any other. */
  function GuestAccessFor(preset: Preset): (r: GuestAccess)
    ensures r == Forbidden <==> preset == PublicChat
  {
    if preset == PublicChat then Forbidden else CanJoin
  }

  /** Encryption events among the initial state are dropped when encryption is disallowed. */
  predicate KeepInitialEvent(allowEncryption: bool, pdu: PduBuilder)
  {
    pdu.eventType != RoomEncryption || allowEncryption
  }

  /** The initial-state events that are appended, in their original order. */
  function KeptEvents(pdus: seq<PduBuilder>, allowEncryption: bool): seq<PduBuilder>
    decreases |pdus|
  {
    if |pdus| == 0 then []
    else (if KeepInitialEvent(allowEncryption, pdus[0]) then [pdus[0]] else []) + KeptEvents(pdus[1..], allowEncryption)
  }

  /** The kept events are exactly the entries that pass `KeepInitialEvent`, so every entry when
      encryption is allowed; a state entry none of the entries writes is not written by them either. */
  lemma {:induction false} KeptEventsSpec(pdus: seq<PduBuilder>, allowEncryption: bool)
    ensures var r := KeptEvents(pdus, allowEncryption);
      && |r| <= |pdus|
      && (forall p :: p in r <==> p in pdus && KeepInitialEvent(allowEncryption, p))
      && (allowEncryption ==> r == pdus)
      && (forall t, k :: Untouched(pdus, t, k) ==> Untouched(r, t, k))
    decreases |pdus|
  {
    if |pdus| > 0 {
      KeptEventsSpec(pdus[1..], allowEncryption);
      assert pdus == [pdus[0]] + pdus[1..];
      var r := KeptEvents(pdus, allowEncryption);
      forall t, k | Untouched(pdus, t, k) ensures Untouched(r, t, k) {
        assert Untouched(pdus[1..], t, k) by {
          forall i | 0 <= i < |pdus| - 1 ensures pdus[1..][i].eventType != t || pdus[1..][i].stateKey != Some(k) {
            assert pdus[1..][i] == pdus[i + 1];
          }
        }
        var rest := KeptEvents(pdus[1..], allowEncryption);
        forall i | 0 <= i < |r| ensures r[i].eventType != t || r[i].stateKey != Some(k) {
          if KeepInitialEvent(allowEncryption, pdus[0]) && i > 0 {
            assert r[i] == rest[i - 1];
          } else if !KeepInitialEvent(allowEncryption, pdus[0]) {
            assert r[i] == rest[i];
          }
        }
      }
    }
  }

  /** Dropping encryption events works entry by entry and keeps the order: the kept events of
      `a + b` are those of `a` followed by those of `b`, and a single entry is kept exactly
      when it passes `KeepInitialEvent`. So of two entries for the same state entry, the one
      later in the request is still the later one appended. */
  lemma {:induction false} KeptEventsConcat(a: seq<PduBuilder>, b: seq<PduBuilder>, allowEncryption: bool)
    ensures KeptEvents(a + b, allowEncryption) == KeptEvents(a, allowEncryption) + KeptEvents(b, allowEncryption)
    ensures |a| == 1 ==> KeptEvents(a, allowEncryption) == (if KeepInitialEvent(allowEncryption, a[0]) then a else [])
    decreases |a|
  {
    if |a| == 0 {
      assert a + b == b;
    } else {
      assert (a + b)[0] == a[0];
      assert (a + b)[1..] == a[1..] + b;
      KeptEventsConcat(a[1..], b, allowEncryption);
      if |a| == 1 {
        assert KeptEvents(a[1..], allowEncryption) == [];
      }
    }
  }

  /** Every entry of `entries` deserialised. */
  predicate AllParsed(entries: seq<Option<PduBuilder>>)
  {
    forall i :: 0 <= i < |entries| ==> entries[i].Some?
  }

  function Parsed(entries: seq<Option<PduBuilder>>): (r: seq<PduBuilder>)
    requires AllParsed(entries)
    ensures |r| == |entries|
    ensures forall i :: 0 <= i < |entries| ==> Some(r[i]) == entries[i]
  {
    seq(|entries|, i requires 0 <= i < |entries| => entries[i].value)
  }

  /** The position of the first initial-state entry that does not deserialise, or the number of
      entries when all of them do. */
  function FirstUnparsed(entries: seq<Option<PduBuilder>>): (n: nat)
    ensures n <= |entries|
    ensures AllParsed(entries[..n])
    ensures n < |entries| ==> entries[n].None?
    ensures n == |entries| <==> AllParsed(entries)
    decreases |entries|
  {
    if |entries| == 0 || entries[0].None? then 0
    else
      var n := 1 + FirstUnparsed(entries[1..]);
      assert forall i :: 1 <= i < n ==> entries[..n][i] == entries[1..][..n - 1][i - 1];
      assert AllParsed(entries) ==> AllParsed(entries[1..]) by {
        assert forall i :: 0 <= i < |entries| - 1 ==> entries[1..][i] == entries[i + 1];
      }
      n
  }

  /** Step 5 of room creation: append the initial-state entries in order, silently skipping
      encryption events when encryption is disallowed, and stop with `InvalidParam` at the first
      entry that does not deserialise; the entries before that one stay appended. */
  function AppendInitialState(db: RoomDb, sender: UserId, roomId: RoomId, entries: seq<Option<PduBuilder>>, allowEncryption: bool)
    : (r: (RoomDb, Result<(), Error>))
    ensures r.1.Ok? <==> AllParsed(entries)
    ensures r.1.Err? ==> r.1.error == BadRequest(InvalidParam, INVALID_INITIAL_STATE)
    ensures r.1.Ok? ==> r.0 == AppendAll(db, sender, roomId, KeptEvents(Parsed(entries), allowEncryption))
    ensures r.1.Err? ==>
      var n := FirstUnparsed(entries);
      r.0.log == db.log + AppendedAs(roomId, sender, KeptEvents(Parsed(entries[..n]), allowEncryption))
    ensures r.0.aliases == db.aliases && r.0.publicRooms == db.publicRooms
    ensures r.0 == AppendAll(db, sender, roomId, KeptEvents(Parsed(entries[..FirstUnparsed(entries)]), allowEncryption))
  {
    var n := FirstUnparsed(entries);
    var appended := AppendAll(db, sender, roomId, KeptEvents(Parsed(entries[..n]), allowEncryption));
    if n < |entries| then (appended, Err(BadRequest(InvalidParam, INVALID_INITIAL_STATE)))
    else
      assert entries[..n] == entries;
      (appended, Ok(()))
  }

  /** The full alias `#<localpart>:<server name>` a creation request asks for. */
  function AliasFor(localpart: string, serverName: ServerName): (alias: string)
    ensures |alias| == |localpart| + |serverName| + 2
    ensures alias[0] == '#' && alias[1..|localpart| + 1] == localpart
    ensures alias[|localpart| + 1] == ':' && alias[|localpart| + 2..] == serverName
  {
    "#" + localpart + ":" + serverName
  }

  /** The alias a creation request asks for, rejected as invalid or as already in use. */
  function RequestedAlias(db: RoomDb, req: CreateRequest, ctx: CreateContext): (r: Result<Option<string>, Error>)
    ensures req.roomAliasName.None? ==> r == Ok(None)
    ensures req.roomAliasName.Some? ==>
      var alias := AliasFor(req.roomAliasName.value, ctx.serverName);
      && (!ctx.aliasIsValid(alias) ==> r == Err(BadRequest(InvalidParam, INVALID_ALIAS)))
      && (ctx.aliasIsValid(alias) && alias in db.aliases ==> r == Err(BadRequest(RoomInUse, ALIAS_EXISTS)))
      && (ctx.aliasIsValid(alias) && alias !in db.aliases ==> r == Ok(Some(alias)))
  {
    match req.roomAliasName
    case None => Ok(None)
    case Some(localpart) =>
      var alias := AliasFor(localpart, ctx.serverName);
      if !ctx.aliasIsValid(alias) then Err(BadRequest(InvalidParam, INVALID_ALIAS))
      else if alias in db.aliases then Err(BadRequest(RoomInUse, ALIAS_EXISTS))
      else Ok(Some(alias))
  }

  /** Steps 1 and 2 of room creation: the create event (always room version 6) and the creator's join. */
  function FoundingEvents(req: CreateRequest): seq<PduBuilder>
  {
    [ PduBuilder(RoomCreate, CreateContent(req.sender, req.federate, req.predecessor, V6), Some("")),
      PduBuilder(RoomMember, MemberContent(Join, Some(req.isDirect)), Some(req.sender)) ]
  }

  /** Steps 3 and 4: power levels, then the events the preset implies; history is always shared. */
  function PresetEvents(preset: Preset, powerLevels: map<string, Json>): seq<PduBuilder>
  {
    [ PduBuilder(RoomPowerLevels, JsonContent(powerLevels), Some("")),
      PduBuilder(RoomJoinRules, JoinRulesContent(JoinRuleFor(preset)), Some("")),
      PduBuilder(RoomHistoryVisibility, HistoryVisibilityContent(Shared), Some("")),
      PduBuilder(RoomGuestAccess, GuestAccessContent(GuestAccessFor(preset)), Some("")) ]
  }

  /** Step 6: the events implied by the name and the topic. */
  function NameAndTopic(req: CreateRequest): seq<PduBuilder>
  {
    (if req.name.Some? then [PduBuilder(RoomName, NameContent(req.name.value), Some(""))] else [])
    + (if req.topic.Some? then [PduBuilder(RoomTopic, TopicContent(req.topic.value), Some(""))] else [])
  }

  /** Everything a successful creation appends to the new room, in order. */
  function CreationEvents(req: CreateRequest, ctx: CreateContext, powerLevels: map<string, Json>): seq<PduBuilder>
    requires AllParsed(req.initialState)
  {
    FoundingEvents(req)
    + PresetEvents(EffectivePreset(req.preset, req.visibility), powerLevels)
    + KeptEvents(Parsed(req.initialState), ctx.allowEncryption)
    + NameAndTopic(req)
  }

  /** The initial-state entries appended before the first one that does not deserialise. */
  function KeptPrefix(req: CreateRequest, ctx: CreateContext): seq<PduBuilder>
  {
    KeptEvents(Parsed(req.initialState[..FirstUnparsed(req.initialState)]), ctx.allowEncryption)
  }

  /** Steps 5 and 6 of room creation, in a room that already has its founding and preset
      events: the initial state, then the name check, then the name and topic events. */
  function InitialiseRoom(configured: RoomDb, req: CreateRequest, ctx: CreateContext): (r: (RoomDb, Result<(), Error>))
    ensures r.1.Ok? <==> AllParsed(req.initialState) && (req.name.Some? ==> ctx.nameIsValid(req.name.value))
    ensures !AllParsed(req.initialState) ==>
      r == (AppendAll(configured, req.sender, ctx.newRoomId, KeptPrefix(req, ctx)), Err(BadRequest(InvalidParam, INVALID_INITIAL_STATE)))
    ensures AllParsed(req.initialState) && req.name.Some? && !ctx.nameIsValid(req.name.value) ==>
      r == (AppendAll(configured, req.sender, ctx.newRoomId, KeptPrefix(req, ctx)), Err(BadRequest(InvalidParam, INVALID_NAME)))
    ensures r.1.Ok? ==>
      r.0 == AppendAll(configured, req.sender, ctx.newRoomId,
                       KeptEvents(Parsed(req.initialState), ctx.allowEncryption) + NameAndTopic(req))
  {
    var room, sender := ctx.newRoomId, req.sender;
    var (initialised, initial) := AppendInitialState(configured, sender, room, req.initialState, ctx.allowEncryption);
    if initial.Err? then (initialised, Err(initial.error))
    else if req.name.Some? && !ctx.nameIsValid(req.name.value) then (initialised, Err(BadRequest(InvalidParam, INVALID_NAME)))
    else
      var kept := KeptEvents(Parsed(req.initialState), ctx.allowEncryption);
      assert req.initialState[..FirstUnparsed(req.initialState)] == req.initialState;
      AppendAllConcat(configured, sender, room, kept, NameAndTopic(req));
      (AppendAll(initialised, sender, room, NameAndTopic(req)), Ok(()))
  }

  /** Steps 1 to 6 of room creation once the power levels are known: all the events before the
      initial state, then steps 5 and 6. */
  function PopulateWith(db: RoomDb, req: CreateRequest, ctx: CreateContext, powerLevels: map<string, Json>)
    : (r: (RoomDb, Result<(), Error>))
    ensures r.1.Ok? <==> AllParsed(req.initialState) && (req.name.Some? ==> ctx.nameIsValid(req.name.value))
    ensures r.1.Ok? ==> r.0 == AppendAll(db, req.sender, ctx.newRoomId, CreationEvents(req, ctx, powerLevels))
    ensures r.1.Err? ==>
      var events := FoundingEvents(req) + PresetEvents(EffectivePreset(req.preset, req.visibility), powerLevels);
      && r.0 == AppendAll(db, req.sender, ctx.newRoomId, events + KeptPrefix(req, ctx))
      && r.1.error == (if AllParsed(req.initialState) then BadRequest(InvalidParam, INVALID_NAME)
                       else BadRequest(InvalidParam, INVALID_INITIAL_STATE))
  {
    var room, sender := ctx.newRoomId, req.sender;
    var events := FoundingEvents(req) + PresetEvents(EffectivePreset(req.preset, req.visibility), powerLevels);
    var r := InitialiseRoom(AppendAll(db, sender, room, events), req, ctx);
    if r.1.Err? then
      AppendAllConcat(db, sender, room, events, KeptPrefix(req, ctx));
      r
    else
      var rest := KeptEvents(Parsed(req.initialState), ctx.allowEncryption) + NameAndTopic(req);
      AppendAllConcat(db, sender, room, events, rest);
      CreationEventsSplit(req, ctx, powerLevels);
      r
  }

  lemma CreationEventsSplit(req: CreateRequest, ctx: CreateContext, powerLevels: map<string, Json>)
    requires AllParsed(req.initialState)
    ensures CreationEvents(req, ctx, powerLevels)
         == (FoundingEvents(req) + PresetEvents(EffectivePreset(req.preset, req.visibility), powerLevels))
            + (KeptEvents(Parsed(req.initialState), ctx.allowEncryption) + NameAndTopic(req))
  {
  }

  /** Steps 1 to 6 of room creation. A bad override, initial-state entry or name stops the
      route after the events before it were appended. */
  function PopulateRoom(db: RoomDb, req: CreateRequest, ctx: CreateContext): (r: (RoomDb, Result<(), Error>))
    ensures r.0.aliases == db.aliases && r.0.publicRooms == db.publicRooms
    ensures r.1.Ok? <==>
      && PowerLevelsContent(req, EffectivePreset(req.preset, req.visibility), ctx.powerLevelDefaults).Ok?
      && AllParsed(req.initialState)
      && (req.name.Some? ==> ctx.nameIsValid(req.name.value))
    ensures r.1.Ok? ==>
      r.0 == AppendAll(db, req.sender, ctx.newRoomId,
               CreationEvents(req, ctx, PowerLevelsContent(req, EffectivePreset(req.preset, req.visibility), ctx.powerLevelDefaults).value))
    ensures r.1.Err? ==>
      r.1.error in {BadRequest(BadJson, INVALID_OVERRIDE), BadRequest(InvalidParam, INVALID_INITIAL_STATE), BadRequest(InvalidParam, INVALID_NAME)}
    ensures PowerLevelsContent(req, EffectivePreset(req.preset, req.visibility), ctx.powerLevelDefaults).Err? ==>
      r == (AppendAll(db, req.sender, ctx.newRoomId, FoundingEvents(req)), Err(BadRequest(BadJson, INVALID_OVERRIDE)))
    ensures PowerLevelsContent(req, EffectivePreset(req.preset, req.visibility), ctx.powerLevelDefaults).Ok? ==>
      var preset := EffectivePreset(req.preset, req.visibility);
      var configured := FoundingEvents(req) + PresetEvents(preset, PowerLevelsContent(req, preset, ctx.powerLevelDefaults).value);
      && (!AllParsed(req.initialState) ==>
            r == (AppendAll(db, req.sender, ctx.newRoomId, configured + KeptPrefix(req, ctx)),
                  Err(BadRequest(InvalidParam, INVALID_INITIAL_STATE))))
      && (AllParsed(req.initialState) && req.name.Some? && !ctx.nameIsValid(req.name.value) ==>
            r == (AppendAll(db, req.sender, ctx.newRoomId, configured + KeptPrefix(req, ctx)),
                  Err(BadRequest(InvalidParam, INVALID_NAME))))
  {
    match PowerLevelsContent(req, EffectivePreset(req.preset, req.visibility), ctx.powerLevelDefaults)
    case Err(e) => (AppendAll(db, req.sender, ctx.newRoomId, FoundingEvents(req)), Err(e))
    case Ok(powerLevels) => PopulateWith(db, req, ctx, powerLevels)
  }

  /** The homeserver-specific part of room creation: `set_alias` for the requested alias and
      `set_public` for a public room. */
  function Register(db: RoomDb, alias: Option<string>, roomId: RoomId, public: bool): (r: RoomDb)
    ensures r.log == db.log && r.state == db.state
    ensures alias.Some? ==> r.aliases == db.aliases[alias.value := roomId]
    ensures alias.None? ==> r.aliases == db.aliases
    ensures r.publicRooms == (if public then db.publicRooms + {roomId} else db.publicRooms)
  {
    RoomDb(db.log, db.state,
           if alias.Some? then db.aliases[alias.value := roomId] else db.aliases,
           if public then db.publicRooms + {roomId} else db.publicRooms)
  }

  /** Room creation once the alias, if any, has been accepted: populate the room, then record
      the alias and publish a public room. */
  function CreateWithAlias(db: RoomDb, req: CreateRequest, ctx: CreateContext, alias: Option<string>)
    : (r: (RoomDb, Result<RoomId, Error>))
    ensures r.1.Ok? <==> PopulateRoom(db, req, ctx).1.Ok?
    ensures r.1.Err? ==> r.0.aliases == db.aliases && r.0.publicRooms == db.publicRooms
    ensures r.1.Ok? ==>
      && r.1.value == ctx.newRoomId
      && r.0.log == PopulateRoom(db, req, ctx).0.log
      && r.0.aliases == (if alias.Some? then db.aliases[alias.value := ctx.newRoomId] else db.aliases)
      && r.0.publicRooms == db.publicRooms + (if req.visibility == Public then {ctx.newRoomId} else {})
  {
    var populated := PopulateRoom(db, req, ctx);
    if populated.1.Err? then (populated.0, Err(populated.1.error))
    else
      var registered := Register(populated.0, alias, ctx.newRoomId, req.visibility == Public);
      assert populated.0.aliases == db.aliases && populated.0.publicRooms == db.publicRooms;
      (registered, Ok(ctx.newRoomId))
  }

  /** A creation succeeds exactly when the alias, if any, is accepted, the override is a JSON
      object, every initial-state entry deserialises and the name, if any, is valid. */
  predicate CreationSucceeds(db: RoomDb, req: CreateRequest, ctx: CreateContext)
  {
    && RequestedAlias(db, req, ctx).Ok?
    && PowerLevelsContent(req, EffectivePreset(req.preset, req.visibility), ctx.powerLevelDefaults).Ok?
    && AllParsed(req.initialState)
    && (req.name.Some? ==> ctx.nameIsValid(req.name.value))
  }

  /** `create_room_route`. A rejected alias fails before anything is appended; a later failure
      leaves the alias table and the directory alone. On success the new room has received
      `CreationEvents` in order, the alias points at it and a public room is published. */
  function CreateRoom(db: RoomDb, req: CreateRequest, ctx: CreateContext): (r: (RoomDb, Result<RoomId, Error>))
    ensures r.1.Ok? <==> CreationSucceeds(db, req, ctx)
    ensures RequestedAlias(db, req, ctx).Err? ==> r == (db, Err(RequestedAlias(db, req, ctx).error))
    ensures r.1.Err? ==> r.0.aliases == db.aliases && r.0.publicRooms == db.publicRooms
    ensures r.1.Ok? ==>
      var preset := EffectivePreset(req.preset, req.visibility);
      && r.1.value == ctx.newRoomId
      && RequestedAlias(db, req, ctx).Ok?
      && PowerLevelsContent(req, preset, ctx.powerLevelDefaults).Ok?
      && AllParsed(req.initialState)
      && (req.name.Some? ==> ctx.nameIsValid(req.name.value))
      && r.0.log == db.log + AppendedAs(ctx.newRoomId, req.sender,
                               CreationEvents(req, ctx, PowerLevelsContent(req, preset, ctx.powerLevelDefaults).value))
      && (req.roomAliasName.Some? ==>
            r.0.aliases == db.aliases[AliasFor(req.roomAliasName.value, ctx.serverName) := ctx.newRoomId])
      && (req.roomAliasName.None? ==> r.0.aliases == db.aliases)
      && r.0.publicRooms == db.publicRooms + (if req.visibility == Public then {ctx.newRoomId} else {})
  {
    match RequestedAlias(db, req, ctx)
    case Err(e) => (db, Err(e))
    case Ok(alias) => CreateWithAlias(db, req, ctx, alias)
  }

  /** Appending events only ever extends the log. */
  lemma AppendAllExtends(db: RoomDb, sender: UserId, roomId: RoomId, pdus: seq<PduBuilder>)
    ensures db.log <= AppendAll(db, sender, roomId, pdus).log
  {
    var log := AppendAll(db, sender, roomId, pdus).log;
    assert log == db.log + AppendedAs(roomId, sender, pdus);
    assert log[..|db.log|] == db.log;
  }

  /** Room creation never removes or rewrites an event already in the log, whether it succeeds
      or fails. */
  lemma CreateRoomOnlyAppends(db: RoomDb, req: CreateRequest, ctx: CreateContext)
    ensures db.log <= CreateRoom(db, req, ctx).0.log
  {
    var room, sender := ctx.newRoomId, req.sender;
    var preset := EffectivePreset(req.preset, req.visibility);
    if RequestedAlias(db, req, ctx).Ok? {
      var founded := AppendAll(db, sender, room, FoundingEvents(req));
      AppendAllExtends(db, sender, room, FoundingEvents(req));
      var pl := PowerLevelsContent(req, preset, ctx.powerLevelDefaults);
      if pl.Ok? {
        var configured := AppendAll(founded, sender, room, PresetEvents(preset, pl.value));
        AppendAllExtends(founded, sender, room, PresetEvents(preset, pl.value));
        var n := FirstUnparsed(req.initialState);
        var kept := KeptEvents(Parsed(req.initialState[..n]), ctx.allowEncryption);
        var initialised := AppendAll(configured, sender, room, kept);
        AppendAllExtends(configured, sender, room, kept);
        assert initialised.log == AppendInitialState(configured, sender, room, req.initialState, ctx.allowEncryption).0.log;
        if AllParsed(req.initialState) && (req.name.Some? ==> ctx.nameIsValid(req.name.value)) {
          AppendAllExtends(initialised, sender, room, NameAndTopic(req));
        }
      }
    }
  }

  /** The last write wins: after appending `pdus`, a state entry holds what the last event
      among them for that entry set it to. */
  lemma AppendAllWrites(db: RoomDb, sender: UserId, roomId: RoomId, pdus: seq<PduBuilder>, i: nat)
    requires i < |pdus| && pdus[i].stateKey.Some?
    requires Untouched(pdus[i + 1..], pdus[i].eventType, pdus[i].stateKey.value)
    ensures RoomStateGet(AppendAll(db, sender, roomId, pdus), roomId, pdus[i].eventType, pdus[i].stateKey.value)
         == Some(pdus[i].content)
  {
    var t, k := pdus[i].eventType, pdus[i].stateKey.value;
    assert pdus == pdus[..i] + [pdus[i]] + pdus[i + 1..];
    AppendAllConcat(db, sender, roomId, pdus[..i] + [pdus[i]], pdus[i + 1..]);
    AppendAllConcat(db, sender, roomId, pdus[..i], [pdus[i]]);
    var before := AppendAll(db, sender, roomId, pdus[..i]);
    assert AppendAll(before, sender, roomId, [pdus[i]]) == Append(before, sender, roomId, pdus[i]).0;
    AppendAllFrame(AppendAll(before, sender, roomId, [pdus[i]]), sender, roomId, pdus[i + 1..], roomId, t, k);
  }

  /** A founding or preset event stays in effect after all the creation events unless an
      initial-state entry, the name or the topic writes the same state entry. */
  lemma FoundingEventInEffect(db: RoomDb, req: CreateRequest, ctx: CreateContext, powerLevels: map<string, Json>, i: nat)
    requires AllParsed(req.initialState)
    requires i < 6
    requires var e := (FoundingEvents(req) + PresetEvents(EffectivePreset(req.preset, req.visibility), powerLevels))[i];
      Untouched(Parsed(req.initialState), e.eventType, e.stateKey.value)
    ensures var e := (FoundingEvents(req) + PresetEvents(EffectivePreset(req.preset, req.visibility), powerLevels))[i];
      RoomStateGet(AppendAll(db, req.sender, ctx.newRoomId, CreationEvents(req, ctx, powerLevels)), ctx.newRoomId, e.eventType, e.stateKey.value)
        == Some(e.content)
  {
    var room, sender := ctx.newRoomId, req.sender;
    var events := FoundingEvents(req) + PresetEvents(EffectivePreset(req.preset, req.visibility), powerLevels);
    var e := events[i];
    var t, k := e.eventType, e.stateKey.value;
    var kept := KeptEvents(Parsed(req.initialState), ctx.allowEncryption);
    assert forall j :: 0 <= j < |events| && j != i ==> events[j].eventType != t;
    assert Untouched(events[i + 1..], t, k) by {
      var suffix := events[i + 1..];
      forall j | 0 <= j < |suffix| ensures suffix[j].eventType != t {
        assert suffix[j] == events[i + 1 + j];
      }
    }
    assert Untouched(NameAndTopic(req), t, k);
    var configured := AppendAll(db, sender, room, events);
    var initialised := AppendAll(configured, sender, room, kept);
    AppendAllConcat(db, sender, room, events, kept);
    AppendAllConcat(db, sender, room, events + kept, NameAndTopic(req));
    KeptEventsSpec(Parsed(req.initialState), ctx.allowEncryption);
    AppendAllFrame(initialised, sender, room, NameAndTopic(req), room, t, k);
    AppendAllFrame(configured, sender, room, kept, room, t, k);
    AppendAllWrites(db, sender, room, events, i);
  }

  /** After the creation events the creator has joined the new room, unless an initial-state
      entry replaced the creator's membership. */
  lemma CreatorJoinsNewRoom(db: RoomDb, req: CreateRequest, ctx: CreateContext, powerLevels: map<string, Json>)
    requires AllParsed(req.initialState)
    requires Untouched(Parsed(req.initialState), RoomMember, req.sender)
    ensures RoomStateGet(AppendAll(db, req.sender, ctx.newRoomId, CreationEvents(req, ctx, powerLevels)), ctx.newRoomId, RoomMember, req.sender)
         == Some(MemberContent(Join, Some(req.isDirect)))
  {
    FoundingEventInEffect(db, req, ctx, powerLevels, 1);
  }

  /** After the creation events history is shared, and the join rules and guest access follow
      the preset, except where an initial-state entry replaced them. */
  lemma PresetStateInEffect(db: RoomDb, req: CreateRequest, ctx: CreateContext, powerLevels: map<string, Json>)
    requires AllParsed(req.initialState)
    ensures var after, room, preset := AppendAll(db, req.sender, ctx.newRoomId, CreationEvents(req, ctx, powerLevels)),
                                       ctx.newRoomId, EffectivePreset(req.preset, req.visibility);
      var initial := Parsed(req.initialState);
      && (Untouched(initial, RoomJoinRules, "") ==>
            RoomStateGet(after, room, RoomJoinRules, "") == Some(JoinRulesContent(JoinRuleFor(preset))))
      && (Untouched(initial, RoomHistoryVisibility, "") ==>
            RoomStateGet(after, room, RoomHistoryVisibility, "") == Some(HistoryVisibilityContent(Shared)))
      && (Untouched(initial, RoomGuestAccess, "") ==>
            RoomStateGet(after, room, RoomGuestAccess, "") == Some(GuestAccessContent(GuestAccessFor(preset))))
  {
    var initial := Parsed(req.initialState);
    if Untouched(initial, RoomJoinRules, "") {
      FoundingEventInEffect(db, req, ctx, powerLevels, 3);
    }
    if Untouched(initial, RoomHistoryVisibility, "") {
      FoundingEventInEffect(db, req, ctx, powerLevels, 4);
    }
    if Untouched(initial, RoomGuestAccess, "") {
      FoundingEventInEffect(db, req, ctx, powerLevels, 5);
    }
  }

  /** A successful creation leaves the new room in the state its creation events produce. */
  lemma CreatedRoomPopulated(db: RoomDb, req: CreateRequest, ctx: CreateContext)
    requires CreationSucceeds(db, req, ctx)
    ensures CreateRoom(db, req, ctx).1 == Ok(ctx.newRoomId)
    ensures CreateRoom(db, req, ctx).0.state
         == AppendAll(db, req.sender, ctx.newRoomId,
              CreationEvents(req, ctx, PowerLevelsContent(req, EffectivePreset(req.preset, req.visibility), ctx.powerLevelDefaults).value)).state
  {
  }

  // ---------------------------------------------------------------- room upgrade

  /** The lock-down level: the greater of 50 and `users_default + 1`, so the least level that
      is at least 50 and above every user without an explicit level. */
  function LockDownLevel(usersDefault: int): (l: int)
    ensures l >= 50 && l > usersDefault
    ensures l == 50 || l == usersDefault + 1
  {
    if 50 >= usersDefault + 1 then 50 else usersDefault + 1
  }

  /** A power-level field as ruma deserialises it: absent means `default`, an integer is that
      level, anything else fails. */
  function PowerLevelField(fields: map<string, Json>, key: string, default: int): (r: Result<int, ()>)
    ensures key !in fields ==> r == Ok(default)
    ensures key in fields ==> (r.Ok? <==> fields[key].JInt?)
    ensures key in fields && r.Ok? ==> fields[key] == JInt(r.value)
  {
    if key !in fields then Ok(default)
    else match fields[key]
      case JInt(i) => Ok(i)
      case _ => Err(())
  }

  /** The old room's power levels with `events_default` and `invite` raised to the lock-down
      level; `Err` when the stored content does not deserialise as power levels. */
  function LockDownPowerLevels(fields: map<string, Json>): (r: Result<map<string, Json>, ()>)
    ensures r.Ok? <==>
      && PowerLevelField(fields, "users_default", 0).Ok?
      && PowerLevelField(fields, "events_default", 0).Ok?
      && PowerLevelField(fields, "invite", 0).Ok?
    ensures r.Ok? ==>
      var l := LockDownLevel(PowerLevelField(fields, "users_default", 0).value);
      && r.value.Keys == fields.Keys + {"events_default", "invite"}
      && r.value["events_default"] == JInt(l)
      && r.value["invite"] == JInt(l)
      && (forall k :: k in fields && k != "events_default" && k != "invite" ==> r.value[k] == fields[k])
  {
    match PowerLevelField(fields, "users_default", 0)
    case Err(_) => Err(())
    case Ok(usersDefault) =>
      if PowerLevelField(fields, "events_default", 0).Err? || PowerLevelField(fields, "invite", 0).Err? then Err(())
      else
        var l := LockDownLevel(usersDefault);
        Ok(fields["events_default" := JInt(l)]["invite" := JInt(l)])
  }

  /** The events the replacement room receives from the old room: each transferable type the
      old room has a state event for (state key ""), in list order, with the same content. */
  function TransferredEvents(db: RoomDb, roomId: RoomId, types: seq<EventType>): (r: seq<PduBuilder>)
    ensures |r| <= |types|
    ensures forall i :: 0 <= i < |r| ==>
      && r[i].eventType in types && r[i].stateKey == Some("")
      && RoomStateGet(db, roomId, r[i].eventType, "") == Some(r[i].content)
    ensures forall t :: t in types && RoomStateGet(db, roomId, t, "").Some? ==>
      PduBuilder(t, RoomStateGet(db, roomId, t, "").value, Some("")) in r
    decreases |types|
  {
    if |types| == 0 then []
    else
      assert types == [types[0]] + types[1..];
      var rest := TransferredEvents(db, roomId, types[1..]);
      match RoomStateGet(db, roomId, types[0], "")
      case None => rest
      case Some(content) => [PduBuilder(types[0], content, Some(""))] + rest
  }

  /** The copy order is the list order: the events transferred for `a + b` are those for `a`
      followed by those for `b`. */
  lemma {:induction false} TransferredEventsConcat(db: RoomDb, roomId: RoomId, a: seq<EventType>, b: seq<EventType>)
    ensures TransferredEvents(db, roomId, a + b) == TransferredEvents(db, roomId, a) + TransferredEvents(db, roomId, b)
    decreases |a|
  {
    if |a| == 0 {
      assert a + b == b;
    } else {
      assert (a + b)[0] == a[0];
      assert (a + b)[1..] == a[1..] + b;
      TransferredEventsConcat(db, roomId, a[1..], b);
    }
  }

  /** A single type yields its event exactly when the old room has one. */
  lemma TransferredEventsOne(db: RoomDb, roomId: RoomId, t: EventType)
    ensures TransferredEvents(db, roomId, [t])
         == if RoomStateGet(db, roomId, t, "").Some?
            then [PduBuilder(t, RoomStateGet(db, roomId, t, "").value, Some(""))] else []
  {
    assert [t][1..] == [];
  }

  /** `TransferredEvents` depends only on the source room's state entries with state key "". */
  lemma {:induction false} TransferredEventsFrame(db: RoomDb, db': RoomDb, roomId: RoomId, types: seq<EventType>)
    requires forall t :: t in types ==> RoomStateGet(db', roomId, t, "") == RoomStateGet(db, roomId, t, "")
    ensures TransferredEvents(db', roomId, types) == TransferredEvents(db, roomId, types)
    decreases |types|
  {
    if |types| > 0 {
      TransferredEventsFrame(db, db', roomId, types[1..]);
    }
  }

  /** The copy loop of the upgrade: every transferable state event of `src` is re-sent, with the
      same content, into `dst`; types `src` lacks are skipped. */
  function CopyTransferable(db: RoomDb, sender: UserId, src: RoomId, dst: RoomId, types: seq<EventType>): (r: RoomDb)
    ensures r == AppendAll(db, sender, dst, TransferredEvents(db, src, types))
    ensures forall t, k :: RoomStateGet(r, src, t, k) == RoomStateGet(db, src, t, k)
    decreases |types|
  {
    if |types| == 0 then db
    else
      match RoomStateGet(db, src, types[0], "")
      case None => CopyTransferable(db, sender, src, dst, types[1..])
      case Some(content) =>
        var pdu := PduBuilder(types[0], content, Some(""));
        var next := Append(db, sender, dst, pdu).0;
        forall t, k ensures RoomStateGet(next, src, t, k) == RoomStateGet(db, src, t, k) {
          if src != dst || t != types[0] || k != "" {
            AppendFrame(db, sender, dst, pdu, src, t, k);
          }
        }
        TransferredEventsFrame(db, next, src, types[1..]);
        AppendAllCons(db, sender, dst, pdu, TransferredEvents(db, src, types[1..]));
        CopyTransferable(next, sender, src, dst, types[1..])
  }

  lemma AppendAllCons(db: RoomDb, sender: UserId, roomId: RoomId, pdu: PduBuilder, rest: seq<PduBuilder>)
    ensures AppendAll(db, sender, roomId, [pdu] + rest) == AppendAll(Append(db, sender, roomId, pdu).0, sender, roomId, rest)
  {
    assert ([pdu] + rest)[0] == pdu;
    assert ([pdu] + rest)[1..] == rest;
  }

  /** The copy loop writes nothing but `dst`'s entries with state key "" for the listed types. */
  lemma {:induction false} CopyTransferableFrame(db: RoomDb, sender: UserId, src: RoomId, dst: RoomId, types: seq<EventType>,
                                                 room: RoomId, t: EventType, k: string)
    requires room != dst || k != "" || t !in types
    ensures RoomStateGet(CopyTransferable(db, sender, src, dst, types), room, t, k) == RoomStateGet(db, room, t, k)
    decreases |types|
  {
    if |types| > 0 {
      match RoomStateGet(db, src, types[0], "")
      case None =>
        CopyTransferableFrame(db, sender, src, dst, types[1..], room, t, k);
      case Some(content) =>
        var pdu := PduBuilder(types[0], content, Some(""));
        var next := Append(db, sender, dst, pdu).0;
        AppendFrame(db, sender, dst, pdu, room, t, k);
        CopyTransferableFrame(next, sender, src, dst, types[1..], room, t, k);
    }
  }

  /** Into a different room, the copy loop carries over each listed state event the source has,
      when no type is listed twice. */
  lemma {:induction false} CopyTransferableCopies(db: RoomDb, sender: UserId, src: RoomId, dst: RoomId, types: seq<EventType>, t: EventType)
    requires src != dst
    requires forall i, j :: 0 <= i < j < |types| ==> types[i] != types[j]
    requires t in types && RoomStateGet(db, src, t, "").Some?
    ensures RoomStateGet(CopyTransferable(db, sender, src, dst, types), dst, t, "") == RoomStateGet(db, src, t, "")
    decreases |types|
  {
    assert types == [types[0]] + types[1..];
    var rest := types[1..];
    assert forall i, j :: 0 <= i < j < |rest| ==> rest[i] != rest[j] by {
      forall i, j | 0 <= i < j < |rest| ensures rest[i] != rest[j] {
        assert rest[i] == types[i + 1] && rest[j] == types[j + 1];
      }
    }
    match RoomStateGet(db, src, types[0], "")
    case None =>
      CopyTransferableCopies(db, sender, src, dst, rest, t);
    case Some(content) =>
      var pdu := PduBuilder(types[0], content, Some(""));
      var next := Append(db, sender, dst, pdu).0;
      AppendFrame(db, sender, dst, pdu, src, t, "");
      if t == types[0] {
        assert t !in rest by {
          forall j | 0 <= j < |rest| ensures rest[j] != t {
            assert rest[j] == types[j + 1];
          }
        }
        CopyTransferableFrame(next, sender, src, dst, rest, dst, t, "");
      } else {
        CopyTransferableCopies(next, sender, src, dst, rest, t);
      }
  }

  /** `set_alias` of every alias of `from` to `to`: those aliases now resolve to `to`, and every
      other alias is untouched. */
  function MoveAliases(aliases: map<string, RoomId>, from: RoomId, to: RoomId): (r: map<string, RoomId>)
    ensures r.Keys == aliases.Keys
    ensures forall a :: a in aliases && aliases[a] == from ==> r[a] == to
    ensures forall a :: a in aliases && aliases[a] != from ==> r[a] == aliases[a]
  {
    map a | a in aliases :: if aliases[a] == from then to else aliases[a]
  }

  /** The request of `upgrade_room_route`, with the replacement room id the server generates. */
  datatype UpgradeRequest = UpgradeRequest(sender: UserId, roomId: RoomId, newVersion: RoomVersion, replacementRoom: RoomId)

  /** The events an upgrade sends up to the copying: the tombstone in the old room, then the
      replacement's create event (naming the tombstone as predecessor) and the sender's join. */
  function TombstoneEvent(req: UpgradeRequest): PduBuilder
  {
    PduBuilder(RoomTombstone, TombstoneContent(TOMBSTONE_BODY, req.replacementRoom), Some(""))
  }

  function ReplacementCreateEvent(req: UpgradeRequest, federate: bool, tombstone: nat): PduBuilder
  {
    PduBuilder(RoomCreate, CreateContent(req.sender, federate, Some(PreviousRoom(req.roomId, tombstone)), req.newVersion), Some(""))
  }

  function ReplacementJoinEvent(req: UpgradeRequest): PduBuilder
  {
    PduBuilder(RoomMember, MemberContent(Join, None), Some(req.sender))
  }

  /** Whether the old room's create event lets the upgrade go ahead, and its `federate` flag. */
  function OldRoomFederates(db: RoomDb, roomId: RoomId): (r: Result<bool, Error>)
    ensures RoomStateGet(db, roomId, RoomCreate, "").None? ==> r == Err(BadDatabase(MISSING_CREATE))
    ensures r.Ok? <==> RoomStateGet(db, roomId, RoomCreate, "").Some? && RoomStateGet(db, roomId, RoomCreate, "").value.CreateContent?
    ensures r.Ok? ==> r.value == RoomStateGet(db, roomId, RoomCreate, "").value.federate
    ensures r.Err? && RoomStateGet(db, roomId, RoomCreate, "").Some? ==> r == Err(BadDatabase(INVALID_ROOM_EVENT))
  {
    match RoomStateGet(db, roomId, RoomCreate, "")
    case None => Err(BadDatabase(MISSING_CREATE))
    case Some(CreateContent(_, federate, _, _)) => Ok(federate)
    case Some(_) => Err(BadDatabase(INVALID_ROOM_EVENT))
  }

  /** The old room's locked-down power levels. A missing event is reported with the create
      event's message, as the route does. */
  function LockedDownContent(db: RoomDb, roomId: RoomId): (r: Result<map<string, Json>, Error>)
    ensures RoomStateGet(db, roomId, RoomPowerLevels, "").None? ==> r == Err(BadDatabase(MISSING_CREATE))
    ensures r.Ok? <==>
      && RoomStateGet(db, roomId, RoomPowerLevels, "").Some?
      && RoomStateGet(db, roomId, RoomPowerLevels, "").value.JsonContent?
      && LockDownPowerLevels(RoomStateGet(db, roomId, RoomPowerLevels, "").value.fields).Ok?
    ensures r.Ok? ==> r.value == LockDownPowerLevels(RoomStateGet(db, roomId, RoomPowerLevels, "").value.fields).value
    ensures r.Err? && RoomStateGet(db, roomId, RoomPowerLevels, "").Some? ==> r == Err(BadDatabase(INVALID_ROOM_EVENT))
  {
    match RoomStateGet(db, roomId, RoomPowerLevels, "")
    case None => Err(BadDatabase(MISSING_CREATE))
    case Some(JsonContent(fields)) =>
      (match LockDownPowerLevels(fields)
       case Ok(locked) => Ok(locked)
       case Err(_) => Err(BadDatabase(INVALID_ROOM_EVENT)))
    case Some(_) => Err(BadDatabase(INVALID_ROOM_EVENT))
  }

  /** The replacement room's founding events, in order: its create event and the sender's join. */
  function FoundingOfReplacement(req: UpgradeRequest, federate: bool, tombstone: nat): (r: seq<PduBuilder>)
    ensures forall i :: 0 <= i < |r| ==> r[i].eventType !in TRANSFERABLE_STATE_EVENTS
  {
    [ReplacementCreateEvent(req, federate, tombstone), ReplacementJoinEvent(req)]
  }

  /** The replacement room, founded and filled with copies of the old room's transferable
      state, with the old room's aliases moved to it. The old room's state is left as it was at
      every transferable type and at the power levels. */
  function FillReplacement(db: RoomDb, req: UpgradeRequest, federate: bool, tombstone: nat): (r: RoomDb)
    ensures r.log == db.log
      + AppendedAs(req.replacementRoom, req.sender, FoundingOfReplacement(req, federate, tombstone))
      + AppendedAs(req.replacementRoom, req.sender, TransferredEvents(db, req.roomId, TRANSFERABLE_STATE_EVENTS))
    ensures r.aliases == MoveAliases(db.aliases, req.roomId, req.replacementRoom)
    ensures r.publicRooms == db.publicRooms
    ensures RoomStateGet(r, req.roomId, RoomPowerLevels, "") == RoomStateGet(db, req.roomId, RoomPowerLevels, "")
  {
    var oldRoom := req.roomId;
    var founding := FoundingOfReplacement(req, federate, tombstone);
    var joined := AppendAll(db, req.sender, req.replacementRoom, founding);
    forall t | t in TRANSFERABLE_STATE_EVENTS ensures RoomStateGet(joined, oldRoom, t, "") == RoomStateGet(db, oldRoom, t, "") {
      TransferableExcludesUpgradeEvents(t);
      AppendAllFrame(db, req.sender, req.replacementRoom, founding, oldRoom, t, "");
    }
    TransferredEventsFrame(db, joined, oldRoom, TRANSFERABLE_STATE_EVENTS);
    AppendAllFrame(db, req.sender, req.replacementRoom, founding, oldRoom, RoomPowerLevels, "");
    var copied := CopyTransferable(joined, req.sender, oldRoom, req.replacementRoom, TRANSFERABLE_STATE_EVENTS);
    copied.(aliases := MoveAliases(copied.aliases, oldRoom, req.replacementRoom))
  }

  /** Everything an upgrade does after the tombstone, starting from the database the tombstone
      left: the replacement room is filled, then the old room's power levels are locked down. */
  function ReplaceRoom(db: RoomDb, req: UpgradeRequest, federate: bool, tombstone: nat): (r: (RoomDb, Result<RoomId, Error>))
    ensures r.1.Ok? <==> LockedDownContent(db, req.roomId).Ok?
    ensures r.1.Err? ==> r.1.error == LockedDownContent(db, req.roomId).error
    ensures r.1.Ok? ==> r.1.value == req.replacementRoom
    ensures r.0.log == FillReplacement(db, req, federate, tombstone).log
      + (if r.1.Ok? then [Appended(req.roomId, req.sender, PduBuilder(RoomPowerLevels, JsonContent(LockedDownContent(db, req.roomId).value), Some("")))]
         else [])
    ensures r.0.aliases == MoveAliases(db.aliases, req.roomId, req.replacementRoom)
    ensures r.0.publicRooms == db.publicRooms
  {
    var filled := FillReplacement(db, req, federate, tombstone);
    match LockedDownContent(filled, req.roomId)
    case Err(e) => (filled, Err(e))
    case Ok(locked) => (AppendState(filled, req.sender, req.roomId, RoomPowerLevels, "", JsonContent(locked)), Ok(req.replacementRoom))
  }

  /** The upgrade's two reads of the old room depend only on the state entry they read. */
  lemma OldRoomFederatesFrame(db: RoomDb, db': RoomDb, roomId: RoomId)
    requires RoomStateGet(db', roomId, RoomCreate, "") == RoomStateGet(db, roomId, RoomCreate, "")
    ensures OldRoomFederates(db', roomId) == OldRoomFederates(db, roomId)
  {
  }

  lemma LockedDownContentFrame(db: RoomDb, db': RoomDb, roomId: RoomId)
    requires RoomStateGet(db', roomId, RoomPowerLevels, "") == RoomStateGet(db, roomId, RoomPowerLevels, "")
    ensures LockedDownContent(db', roomId) == LockedDownContent(db, roomId)
  {
  }

  /** The tombstone the upgrade sends into the old room. Nothing the rest of the upgrade reads
      from the old room (its create event, power levels and transferable state) changes. */
  function Tombstone(db: RoomDb, req: UpgradeRequest): (r: RoomDb)
    ensures r.log == db.log + [Appended(req.roomId, req.sender, TombstoneEvent(req))]
    ensures r.aliases == db.aliases && r.publicRooms == db.publicRooms
    ensures RoomStateGet(r, req.roomId, RoomTombstone, "") == Some(TombstoneContent(TOMBSTONE_BODY, req.replacementRoom))
    ensures OldRoomFederates(r, req.roomId) == OldRoomFederates(db, req.roomId)
    ensures LockedDownContent(r, req.roomId) == LockedDownContent(db, req.roomId)
    ensures TransferredEvents(r, req.roomId, TRANSFERABLE_STATE_EVENTS) == TransferredEvents(db, req.roomId, TRANSFERABLE_STATE_EVENTS)
  {
    var pdu := TombstoneEvent(req);
    var r := Append(db, req.sender, req.roomId, pdu).0;
    forall t | t != RoomTombstone ensures RoomStateGet(r, req.roomId, t, "") == RoomStateGet(db, req.roomId, t, "") {
      AppendFrame(db, req.sender, req.roomId, pdu, req.roomId, t, "");
    }
    TransferredEventsFrame(db, r, req.roomId, TRANSFERABLE_STATE_EVENTS);
    OldRoomFederatesFrame(db, r, req.roomId);
    LockedDownContentFrame(db, r, req.roomId);
    r
  }

  /** An upgrade succeeds exactly when the target is version 6 and the old room's create and
      power-levels events can be read. */
  predicate UpgradeSucceeds(db: RoomDb, req: UpgradeRequest)
  {
    && req.newVersion == V6
    && OldRoomFederates(db, req.roomId).Ok?
    && LockedDownContent(db, req.roomId).Ok?
  }

  /** `upgrade_room_route`. Any target version but 6 is refused before anything is appended.
      Otherwise the old room gets a tombstone naming the replacement; the replacement room gets
      a create event naming the tombstone as predecessor and carrying the old room's `federate`
      flag, the sender's join, and a copy of each transferable state event the old room has; the
      old room's aliases move to the replacement; and the old room's power levels are locked
      down. A missing or malformed create or power-levels event in the old room is a database
      error, reported after the events before it were appended. */
  function UpgradeRoom(db: RoomDb, req: UpgradeRequest): (r: (RoomDb, Result<RoomId, Error>))
    ensures r.1.Ok? <==> UpgradeSucceeds(db, req)
    ensures req.newVersion != V6 ==> r == (db, Err(BadRequest(UnsupportedRoomVersion, UNSUPPORTED_VERSION)))
    ensures req.newVersion == V6 && OldRoomFederates(db, req.roomId).Err? ==>
      r == (Tombstone(db, req), Err(OldRoomFederates(db, req.roomId).error))
    ensures r.1.Ok? ==>
      && req.newVersion == V6
      && r.1.value == req.replacementRoom
      && OldRoomFederates(db, req.roomId).Ok?
      && LockedDownContent(db, req.roomId).Ok?
      && r.0.log == db.log
        + [Appended(req.roomId, req.sender, TombstoneEvent(req))]
        + AppendedAs(req.replacementRoom, req.sender, FoundingOfReplacement(req, OldRoomFederates(db, req.roomId).value, |db.log|))
        + AppendedAs(req.replacementRoom, req.sender, TransferredEvents(db, req.roomId, TRANSFERABLE_STATE_EVENTS))
        + [Appended(req.roomId, req.sender, PduBuilder(RoomPowerLevels, JsonContent(LockedDownContent(db, req.roomId).value), Some("")))]
    ensures req.newVersion == V6 && OldRoomFederates(db, req.roomId).Ok? ==>
      r.0.aliases == MoveAliases(db.aliases, req.roomId, req.replacementRoom)
    ensures r.1.Err? ==>
      r.1.error in {BadRequest(UnsupportedRoomVersion, UNSUPPORTED_VERSION), BadDatabase(MISSING_CREATE), BadDatabase(INVALID_ROOM_EVENT)}
    ensures r.0.publicRooms == db.publicRooms
  {
    if req.newVersion != V6 then (db, Err(BadRequest(UnsupportedRoomVersion, UNSUPPORTED_VERSION)))
    else
      var tombstoned := Tombstone(db, req);
      match OldRoomFederates(tombstoned, req.roomId)
      case Err(e) => (tombstoned, Err(e))
      case Ok(federate) => ReplaceRoom(tombstoned, req, federate, |db.log|)
  }

  /** `TRANSFERABLE_STATE_EVENTS` names each type once. */
  lemma TransferableTypesDistinct()
    ensures forall i, j :: 0 <= i < j < |TRANSFERABLE_STATE_EVENTS| ==> TRANSFERABLE_STATE_EVENTS[i] != TRANSFERABLE_STATE_EVENTS[j]
  {
  }

  /** The database a successful upgrade leaves: the filled replacement, then the lock-down. */
  lemma UpgradeResult(db: RoomDb, req: UpgradeRequest)
    requires UpgradeSucceeds(db, req)
    ensures UpgradeRoom(db, req).1 == Ok(req.replacementRoom)
    ensures UpgradeRoom(db, req).0 ==
      AppendState(FillReplacement(Tombstone(db, req), req, OldRoomFederates(db, req.roomId).value, |db.log|),
                  req.sender, req.roomId, RoomPowerLevels, "", JsonContent(LockedDownContent(db, req.roomId).value))
  {
    var tombstoned := Tombstone(db, req);
    var filled := FillReplacement(tombstoned, req, OldRoomFederates(db, req.roomId).value, |db.log|);
    LockedDownContentFrame(tombstoned, filled, req.roomId);
  }

  /** Filling a replacement room that differs from the old one copies each transferable state
      event the old room has. */
  lemma FillReplacementCopies(db: RoomDb, req: UpgradeRequest, federate: bool, tombstone: nat, t: EventType)
    requires req.replacementRoom != req.roomId
    requires t in TRANSFERABLE_STATE_EVENTS && RoomStateGet(db, req.roomId, t, "").Some?
    ensures RoomStateGet(FillReplacement(db, req, federate, tombstone), req.replacementRoom, t, "") == RoomStateGet(db, req.roomId, t, "")
  {
    var founding := FoundingOfReplacement(req, federate, tombstone);
    var joined := AppendAll(db, req.sender, req.replacementRoom, founding);
    AppendAllFrame(db, req.sender, req.replacementRoom, founding, req.roomId, t, "");
    TransferableTypesDistinct();
    CopyTransferableCopies(joined, req.sender, req.roomId, req.replacementRoom, TRANSFERABLE_STATE_EVENTS, t);
  }

  /** The upgrade never copies the events it writes itself. */
  lemma TransferableExcludesUpgradeEvents(t: EventType)
    requires t in TRANSFERABLE_STATE_EVENTS
    ensures t != RoomTombstone && t != RoomCreate && t != RoomMember
  {
  }

  /** After a successful upgrade the replacement room's create event names, as its predecessor,
      the old room and the position of the tombstone; that tombstone is in the old room and
      names the replacement. */
  lemma UpgradeLinksRooms(db: RoomDb, req: UpgradeRequest)
    requires UpgradeSucceeds(db, req)
    ensures var log := UpgradeRoom(db, req).0.log;
      && |log| > |db.log| + 2
      && log[|db.log| + 1].roomId == req.replacementRoom
      && log[|db.log| + 1].pdu.eventType == RoomCreate
      && log[|db.log| + 1].pdu.content.predecessor == Some(PreviousRoom(req.roomId, |db.log|))
      && log[|db.log|].roomId == req.roomId
      && log[|db.log|].pdu.eventType == RoomTombstone
      && log[|db.log|].pdu.content.replacementRoom == req.replacementRoom
      && log[|db.log| + 2] == Appended(req.replacementRoom, req.sender, PduBuilder(RoomMember, MemberContent(Join, None), Some(req.sender)))
  {
    var federate := OldRoomFederates(db, req.roomId).value;
    var founding := AppendedAs(req.replacementRoom, req.sender, FoundingOfReplacement(req, federate, |db.log|));
    var log := UpgradeRoom(db, req).0.log;
    assert log[|db.log| + 1] == founding[0];
    assert log[|db.log| + 2] == founding[1];
  }

  /** After a successful upgrade the old room's power levels are the locked-down copy of what
      they were: `events_default` and `invite` are both raised to a level of at least 50 and
      above `users_default`, so ordinary members can no longer speak or invite. */
  lemma UpgradeLocksDownOldRoom(db: RoomDb, req: UpgradeRequest)
    requires UpgradeSucceeds(db, req)
    ensures RoomStateGet(db, req.roomId, RoomPowerLevels, "").Some? && RoomStateGet(db, req.roomId, RoomPowerLevels, "").value.JsonContent?
    ensures var before := RoomStateGet(db, req.roomId, RoomPowerLevels, "").value.fields;
      var usersDefault := PowerLevelField(before, "users_default", 0);
      var after := RoomStateGet(UpgradeRoom(db, req).0, req.roomId, RoomPowerLevels, "");
      && usersDefault.Ok?
      && after.Some? && after.value.JsonContent?
      && after.value.fields.Keys == before.Keys + {"events_default", "invite"}
      && after.value.fields["events_default"] == after.value.fields["invite"]
      && after.value.fields["events_default"].JInt?
      && after.value.fields["events_default"].i >= 50
      && after.value.fields["events_default"].i > usersDefault.value
  {
    UpgradeResult(db, req);
  }

  /** After a successful upgrade into a different room, the replacement holds a copy of each
      transferable state event the old room had. */
  lemma UpgradeCopiesState(db: RoomDb, req: UpgradeRequest, t: EventType)
    requires UpgradeSucceeds(db, req)
    requires req.replacementRoom != req.roomId
    requires t in TRANSFERABLE_STATE_EVENTS && RoomStateGet(db, req.roomId, t, "").Some?
    ensures RoomStateGet(UpgradeRoom(db, req).0, req.replacementRoom, t, "") == RoomStateGet(db, req.roomId, t, "")
  {
    UpgradeResult(db, req);
    var tombstoned := Tombstone(db, req);
    TransferableExcludesUpgradeEvents(t);
    AppendFrame(db, req.sender, req.roomId, TombstoneEvent(req), req.roomId, t, "");
    assert RoomStateGet(tombstoned, req.roomId, t, "") == RoomStateGet(db, req.roomId, t, "");
    var filled := FillReplacement(tombstoned, req, OldRoomFederates(db, req.roomId).value, |db.log|);
    FillReplacementCopies(tombstoned, req, OldRoomFederates(db, req.roomId).value, |db.log|, t);
    assert RoomStateGet(filled, req.replacementRoom, t, "") == RoomStateGet(db, req.roomId, t, "");
  }

  lemma PrefixTransitive<T>(a: seq<T>, b: seq<T>, c: seq<T>)
    requires a <= b && b <= c
    ensures a <= c
  {
  }

  lemma ReplaceRoomOnlyAppends(db: RoomDb, req: UpgradeRequest, federate: bool, tombstone: nat)
    ensures db.log <= ReplaceRoom(db, req, federate, tombstone).0.log
  {
    assert db.log <= FillReplacement(db, req, federate, tombstone).log;
  }

  /** An upgrade only appends to the event log, whether or not it succeeds. */
  lemma UpgradeOnlyAppends(db: RoomDb, req: UpgradeRequest)
    ensures db.log <= UpgradeRoom(db, req).0.log
  {
    if req.newVersion == V6 {
      var tombstoned := Tombstone(db, req);
      assert db.log <= tombstoned.log;
      if OldRoomFederates(tombstoned, req.roomId).Ok? {
        var federate := OldRoomFederates(tombstoned, req.roomId).value;
        var replaced := ReplaceRoom(tombstoned, req, federate, |db.log|);
        ReplaceRoomOnlyAppends(tombstoned, req, federate, |db.log|);
        assert UpgradeRoom(db, req).0 == replaced.0;
        PrefixTransitive(db.log, tombstoned.log, replaced.0.log);
      }
    }
  }


}
