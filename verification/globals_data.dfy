/** The persistent side of the globals service: the `global` tree holding the event counter,
    the last update-check id, the database version and the server keypair blob; the
    `server_signingkeys` tree; the cache-clearing switch; and the key prefixes a sync watch
    listens on. */
module GlobalsData {
  import opened Wrappers
  import opened Core
  import opened Bytes
  import opened Seqs

  type Key = seq<byte>

  /** One tree of the ordered key-value store. */
  type Tree = map<Key, seq<byte>>

  const COUNTER: Key := [0x63]                                      // b"c"
  const LAST_CHECK_FOR_UPDATES_COUNT: Key := [0x75]                 // b"u"
  const VERSION: Key := [0x76, 0x65, 0x72, 0x73, 0x69, 0x6f, 0x6e]  // b"version"
  const KEYPAIR: Key := [0x6b, 0x65, 0x79, 0x70, 0x61, 0x69, 0x72]  // b"keypair"

  /** The byte that separates the parts of composite keys and of the keypair blob. It never
      occurs in UTF-8 text, so it cannot occur inside an identifier. */
  const SEPARATOR: byte := 0xFF

  const INVALID_UPDATE_CHECK_ID := "last check for updates count has invalid bytes."
  const INVALID_DATABASE_VERSION := "Database version id is invalid."
  const INVALID_KEYPAIR_VERSION := "Invalid version bytes in keypair."
  const INVALID_KEYPAIR_FORMAT := "Invalid keypair format in database."
  const INVALID_KEYPAIR_KEYS := "Private or public keys are invalid."

  datatype VerifyKey = VerifyKey(key: seq<byte>)
  datatype OldVerifyKey = OldVerifyKey(expiredTs: nat, key: seq<byte>)

  /** A server's published signing keys: the current ones and the retired ones. */
  datatype ServerSigningKeys = ServerSigningKeys(
    serverName: ServerName,
    verifyKeys: map<KeyId, VerifyKey>,
    oldVerifyKeys: map<KeyId, OldVerifyKey>,
    validUntilTs: nat)

  /** A value of the `server_signingkeys` tree, seen through JSON decoding. */
  datatype StoredKeys = Decodable(keys: ServerSigningKeys) | Undecodable

  /** The trees this module reads and writes, and the in-memory copy of the counter. */
  datatype Data = Data(global: Tree, serverSigningKeys: map<ServerName, StoredKeys>, counter: u64)

  /** `t'` agrees with `t` on every key except `key`. */
  ghost predicate SameExcept(t: Tree, t': Tree, key: Key)
  {
    && (forall k :: k != key ==> (k in t <==> k in t'))
    && (forall k :: k != key && k in t ==> t'[k] == t[k])
  }

  // ---------------------------------------------------------------- integers in `global`

  /** A `u64` kept under `key`: a missing entry reads as 0; an entry that is not exactly
      eight bytes long is the error `invalid`. */
  function ReadU64(global: Tree, key: Key, invalid: Error): (r: Result<u64, Error>)
    ensures key !in global ==> r == Ok(0)
    ensures key in global ==> (r.Ok? <==> |global[key]| == 8)
    ensures key in global && r.Ok? ==> global[key] == ToBeBytes(r.value)
    ensures r.Err? ==> r.error == invalid
  {
    if key !in global then Ok(0)
    else
      match U64FromBytes(global[key])
      case Some(n) => Ok(n)
      case None => Err(invalid)
  }

  /** Storing `n` under `key` as its eight big-endian bytes. */
  function WriteU64(global: Tree, key: Key, n: u64): (t: Tree)
    ensures ReadU64(t, key, SliceLength) == Ok(n)
    ensures SameExcept(global, t, key)
  {
    U64RoundTrip(n);
    global[key := ToBeBytes(n)]
  }

  function StoredCount(global: Tree): Result<u64, Error>
  {
    ReadU64(global, COUNTER, SliceLength)
  }

  /** The debug assertion guarding every access to the counter. */
  predicate CounterInSync(d: Data)
  {
    StoredCount(d.global) == Ok(d.counter)
  }

  /** `Data::new`: the in-memory counter starts from the persisted one (0 when none is stored);
      a persisted counter of the wrong width aborts start-up. */
  function NewData(global: Tree, serverSigningKeys: map<ServerName, StoredKeys>): (r: Result<Data, Error>)
    ensures r.Ok? <==> (COUNTER !in global || |global[COUNTER]| == 8)
    ensures r.Ok? ==> CounterInSync(r.value)
    ensures r.Ok? ==> r.value.global == global && r.value.serverSigningKeys == serverSigningKeys
    ensures COUNTER !in global ==> r == Ok(Data(global, serverSigningKeys, 0))
  {
    match StoredCount(global)
    case Ok(n) => Ok(Data(global, serverSigningKeys, n))
    case Err(e) => Err(e)
  }

  /** `next_count`: the counter moves to its successor modulo 2^64, is persisted, and the new
      value is returned. */
  function NextCount(d: Data): (r: (Data, u64))
    requires CounterInSync(d)
    ensures r.1 == (d.counter + 1) % U64_MODULUS
    ensures r.0.counter == r.1 && CounterInSync(r.0)
    ensures SameExcept(d.global, r.0.global, COUNTER)
    ensures r.0.serverSigningKeys == d.serverSigningKeys
  {
    var next := WrappingAdd(d.counter, 1);
    (d.(global := WriteU64(d.global, COUNTER, next), counter := next), next)
  }

  /** `current_count`: the in-memory counter, which equals the persisted one. */
  function CurrentCount(d: Data): (r: u64)
    requires CounterInSync(d)
    ensures StoredCount(d.global) == Ok(r)
  {
    d.counter
  }

  /** Counting up from `c` modulo 2^64: the `k` wrapping successors of `c`, in order. */
  function SuccessiveCounts(c: u64, k: nat): (r: seq<u64>)
    ensures |r| == k
    decreases k
  {
    if k == 0 then [] else var n := WrappingAdd(c, 1); [n] + SuccessiveCounts(n, k - 1)
  }

  /** The values `k` successive calls of `next_count` return, starting from `d`: the counter's
      next `k` wrapping successors. */
  function Counts(d: Data, k: nat): (r: seq<u64>)
    requires CounterInSync(d)
    ensures r == SuccessiveCounts(d.counter, k)
    decreases k
  {
    if k == 0 then []
    else
      var (d', c) := NextCount(d);
      [c] + Counts(d', k - 1)
  }

  /** One step of counting modulo 2^64: the wrapping successor of `n mod 2^64` is `n + 1 mod 2^64`. */
  lemma WrapStep(n: nat)
    ensures WrappingAdd((n % U64_MODULUS) as u64, 1) == (n + 1) % U64_MODULUS
  {
    var q := n / U64_MODULUS;
    assert n == q * U64_MODULUS + n % U64_MODULUS;
    if n % U64_MODULUS + 1 == U64_MODULUS {
      assert n + 1 == (q + 1) * U64_MODULUS;
    } else {
      assert n + 1 == q * U64_MODULUS + (n % U64_MODULUS + 1);
    }
  }

  /** The `i`-th successor of `c` is `c + i + 1` modulo 2^64. */
  lemma {:induction false} SuccessiveCountsValues(c: u64, k: nat, i: nat)
    requires i < k
    ensures SuccessiveCounts(c, k)[i] == (c + i + 1) % U64_MODULUS
    decreases k
  {
    var n := WrappingAdd(c, 1);
    if i == 0 {
      WrapStep(c);
    } else {
      SuccessiveCountsValues(n, k - 1, i - 1);
      WrapStep(c);
      assert n == (c + 1) % U64_MODULUS;
      ShiftModulo(c + 1, i);
    }
  }

  lemma ShiftModulo(x: nat, i: nat)
    ensures ((x % U64_MODULUS) + i) % U64_MODULUS == (x + i) % U64_MODULUS
  {
    var q := x / U64_MODULUS;
    assert x == q * U64_MODULUS + x % U64_MODULUS;
    assert x + i == q * U64_MODULUS + ((x % U64_MODULUS) + i);
  }

  /** Up to 2^64 successive calls of `next_count` never return the same value twice. */
  lemma CountsAreDistinct(d: Data, k: nat)
    requires CounterInSync(d)
    requires k <= U64_MODULUS
    ensures forall i, j :: 0 <= i < j < k ==> Counts(d, k)[i] != Counts(d, k)[j]
  {
    SuccessiveCountsDistinct(d.counter, k);
  }

  lemma SuccessiveCountsDistinct(c: u64, k: nat)
    requires k <= U64_MODULUS
    ensures forall i, j :: 0 <= i < j < k ==> SuccessiveCounts(c, k)[i] != SuccessiveCounts(c, k)[j]
  {
    var r := SuccessiveCounts(c, k);
    forall i, j | 0 <= i < j < k
      ensures r[i] != r[j]
    {
      SuccessiveCountsValues(c, k, i);
      SuccessiveCountsValues(c, k, j);
      DistinctModulo(c + i + 1, c + j + 1);
    }
  }

  lemma DistinctModulo(x: nat, y: nat)
    requires 0 < y - x < U64_MODULUS
    ensures x % U64_MODULUS != y % U64_MODULUS
  {
    var qx, qy := x / U64_MODULUS, y / U64_MODULUS;
    assert x == qx * U64_MODULUS + x % U64_MODULUS;
    assert y == qy * U64_MODULUS + y % U64_MODULUS;
    assert y - x == (qy - qx) * U64_MODULUS + (y % U64_MODULUS - x % U64_MODULUS);
  }

  /** `last_check_for_updates_id`: 0 until one has been stored. */
  function LastCheckForUpdatesId(d: Data): Result<u64, Error>
  {
    ReadU64(d.global, LAST_CHECK_FOR_UPDATES_COUNT, BadDatabase(INVALID_UPDATE_CHECK_ID))
  }

  /** `update_check_for_updates_id`: the id reads back as stored; nothing else changes, so
      the counter stays in sync. */
  function UpdateCheckForUpdatesId(d: Data, id: u64): (d': Data)
    ensures LastCheckForUpdatesId(d') == Ok(id)
    ensures SameExcept(d.global, d'.global, LAST_CHECK_FOR_UPDATES_COUNT)
    ensures d'.counter == d.counter && d'.serverSigningKeys == d.serverSigningKeys
    ensures CounterInSync(d) ==> CounterInSync(d')
  {
    d.(global := WriteU64(d.global, LAST_CHECK_FOR_UPDATES_COUNT, id))
  }

  /** `database_version`: 0 until one has been stored. */
  function DatabaseVersion(d: Data): Result<u64, Error>
  {
    ReadU64(d.global, VERSION, BadDatabase(INVALID_DATABASE_VERSION))
  }

  /** `bump_database_version`: the version reads back as stored; nothing else changes. */
  function BumpDatabaseVersion(d: Data, version: u64): (d': Data)
    ensures DatabaseVersion(d') == Ok(version)
    ensures SameExcept(d.global, d'.global, VERSION)
    ensures d'.counter == d.counter && d'.serverSigningKeys == d.serverSigningKeys
    ensures CounterInSync(d) ==> CounterInSync(d')
  {
    d.(global := WriteU64(d.global, VERSION, version))
  }

  // ---------------------------------------------------------------- the keypair blob

  /** The server's signing keypair: its version string, its DER encoding and its public key. */
  datatype Keypair = Keypair(version: string, der: seq<byte>, publicKey: seq<byte>)

  /** The decoders `load_keypair` relies on: UTF-8 decoding of the version, and the Ed25519
      DER parser, which yields the public key of a well-formed keypair. */
  datatype KeyDecoders = KeyDecoders(
    utf8: seq<byte> -> Option<string>,
    fromDer: (seq<byte>, string) -> Option<seq<byte>>)

  /** A keypair blob is the version bytes, one `0xFF`, then the DER key, which may itself
      contain `0xFF`. The version is checked first, so a blob without `0xFF` is a format error
      only when the whole blob is valid UTF-8. */
  function DecodeKeypair(blob: seq<byte>, dec: KeyDecoders): (r: Result<Keypair, Error>)
    ensures dec.utf8(SplitFirst(blob, SEPARATOR).0).None? ==> r == Err(BadDatabase(INVALID_KEYPAIR_VERSION))
    ensures dec.utf8(SplitFirst(blob, SEPARATOR).0).Some? && SEPARATOR !in blob
      ==> r == Err(BadDatabase(INVALID_KEYPAIR_FORMAT))
    ensures dec.utf8(SplitFirst(blob, SEPARATOR).0).Some? && SEPARATOR in blob ==>
      var version, key := dec.utf8(SplitFirst(blob, SEPARATOR).0).value, SplitFirst(blob, SEPARATOR).1.value;
      && (dec.fromDer(key, version).None? ==> r == Err(BadDatabase(INVALID_KEYPAIR_KEYS)))
      && (dec.fromDer(key, version).Some? ==> r == Ok(Keypair(version, key, dec.fromDer(key, version).value)))
    ensures r.Ok? ==>
      && SEPARATOR !in SplitFirst(blob, SEPARATOR).0
      && blob == SplitFirst(blob, SEPARATOR).0 + [SEPARATOR] + r.value.der
      && dec.utf8(SplitFirst(blob, SEPARATOR).0) == Some(r.value.version)
      && dec.fromDer(r.value.der, r.value.version) == Some(r.value.publicKey)
    ensures r.Err? ==> r.error in {BadDatabase(INVALID_KEYPAIR_VERSION), BadDatabase(INVALID_KEYPAIR_FORMAT),
                                  BadDatabase(INVALID_KEYPAIR_KEYS)}
  {
    var parts := SplitFirst(blob, SEPARATOR);
    match dec.utf8(parts.0)
    case None => Err(BadDatabase(INVALID_KEYPAIR_VERSION))
    case Some(version) =>
      match parts.1
      case None => Err(BadDatabase(INVALID_KEYPAIR_FORMAT))
      case Some(key) =>
        match dec.fromDer(key, version)
        case None => Err(BadDatabase(INVALID_KEYPAIR_KEYS))
        case Some(publicKey) => Ok(Keypair(version, key, publicKey))
  }

  /** A blob laid out as version, `0xFF`, key decodes to exactly that version and key. */
  lemma DecodeKeypairOfLayout(versionBytes: seq<byte>, key: seq<byte>, dec: KeyDecoders)
    requires SEPARATOR !in versionBytes
    requires dec.utf8(versionBytes).Some?
    requires dec.fromDer(key, dec.utf8(versionBytes).value).Some?
    ensures DecodeKeypair(versionBytes + [SEPARATOR] + key, dec)
      == Ok(Keypair(dec.utf8(versionBytes).value, key, dec.fromDer(key, dec.utf8(versionBytes).value).value))
  {
    SplitFirstOfConcat(versionBytes, SEPARATOR, key);
  }

  /** `load_keypair`: decode the stored blob, or store the freshly generated one first when
      none is stored. */
  function LoadKeypair(d: Data, generated: seq<byte>, dec: KeyDecoders): (r: (Data, Result<Keypair, Error>))
    ensures KEYPAIR in d.global ==> r.0 == d && r.1 == DecodeKeypair(d.global[KEYPAIR], dec)
    ensures KEYPAIR !in d.global ==>
      && r.0.global == d.global[KEYPAIR := generated]
      && r.1 == DecodeKeypair(generated, dec)
    ensures SameExcept(d.global, r.0.global, KEYPAIR)
    ensures r.0.counter == d.counter && r.0.serverSigningKeys == d.serverSigningKeys
  {
    if KEYPAIR in d.global then (d, DecodeKeypair(d.global[KEYPAIR], dec))
    else (d.(global := d.global[KEYPAIR := generated]), DecodeKeypair(generated, dec))
  }

  /** `remove_keypair`. */
  function RemoveKeypair(d: Data): (d': Data)
    ensures KEYPAIR !in d'.global
    ensures SameExcept(d.global, d'.global, KEYPAIR)
    ensures d'.counter == d.counter && d'.serverSigningKeys == d.serverSigningKeys
  {
    d.(global := d.global - {KEYPAIR})
  }

  /** Writes to the other keys of `global` leave the counter in sync. */
  lemma OtherKeysKeepCounterInSync(d: Data, d': Data, key: Key)
    requires CounterInSync(d)
    requires key != COUNTER
    requires SameExcept(d.global, d'.global, key)
    requires d'.counter == d.counter
    ensures CounterInSync(d')
  {
    assert COUNTER in d.global <==> COUNTER in d'.global;
  }

  // ---------------------------------------------------------------- signing keys

  /** The current keys together with the retired ones; a retired key wins on a shared key id. */
  function AllKeys(keys: ServerSigningKeys): (r: map<KeyId, VerifyKey>)
    ensures r.Keys == keys.verifyKeys.Keys + keys.oldVerifyKeys.Keys
    ensures forall id :: id in keys.oldVerifyKeys ==> r[id] == VerifyKey(keys.oldVerifyKeys[id].key)
    ensures forall id :: id in keys.verifyKeys && id !in keys.oldVerifyKeys ==> r[id] == keys.verifyKeys[id]
  {
    keys.verifyKeys + map id | id in keys.oldVerifyKeys :: VerifyKey(keys.oldVerifyKeys[id].key)
  }

  /** `signing_keys_for` on the store: the union of the current and retired keys, the retired
      key winning on a shared key id, and no keys at all when nothing decodable is stored. */
  function SigningKeysFor(d: Data, origin: ServerName): (r: map<KeyId, VerifyKey>)
    ensures origin !in d.serverSigningKeys || d.serverSigningKeys[origin].Undecodable? ==> r == map[]
    ensures origin in d.serverSigningKeys && d.serverSigningKeys[origin].Decodable? ==>
      var keys := d.serverSigningKeys[origin].keys;
      && r.Keys == keys.verifyKeys.Keys + keys.oldVerifyKeys.Keys
      && (forall id :: id in keys.oldVerifyKeys ==> r[id] == VerifyKey(keys.oldVerifyKeys[id].key))
      && (forall id :: id in keys.verifyKeys && id !in keys.oldVerifyKeys ==> r[id] == keys.verifyKeys[id])
  {
    if origin in d.serverSigningKeys && d.serverSigningKeys[origin].Decodable? then
      AllKeys(d.serverSigningKeys[origin].keys)
    else map[]
  }

  /** The keys `add_signing_key` extends: the stored ones, or a fresh empty set stamped `now`
      when nothing decodable is stored. */
  function ExistingKeys(d: Data, origin: ServerName, now: nat): (k: ServerSigningKeys)
    ensures origin !in d.serverSigningKeys || d.serverSigningKeys[origin].Undecodable? ==>
      k.verifyKeys == map[] && k.oldVerifyKeys == map[]
  {
    if origin in d.serverSigningKeys && d.serverSigningKeys[origin].Decodable? then
      d.serverSigningKeys[origin].keys
    else ServerSigningKeys(origin, map[], map[], now)
  }

  /** Where a key id's verify key comes from after `incoming` is merged into `existing`:
      a retired key of `incoming`, then a retired key of `existing`, then a current key of
      `incoming`, then a current key of `existing`. */
  function KeyPrecedence(existing: ServerSigningKeys, incoming: ServerSigningKeys, id: KeyId): Option<VerifyKey>
  {
    if id in incoming.oldVerifyKeys then Some(VerifyKey(incoming.oldVerifyKeys[id].key))
    else if id in existing.oldVerifyKeys then Some(VerifyKey(existing.oldVerifyKeys[id].key))
    else if id in incoming.verifyKeys then Some(incoming.verifyKeys[id])
    else if id in existing.verifyKeys then Some(existing.verifyKeys[id])
    else None
  }

  /** `add_signing_key`: the stored keys of `origin` are extended with the incoming current and
      retired keys (incoming entries replacing equal key ids), the other fields of the stored
      value are kept, and what is returned is exactly what `signing_keys_for` reads back. */
  function AddSigningKey(d: Data, origin: ServerName, incoming: ServerSigningKeys, now: nat)
    : (r: (Data, map<KeyId, VerifyKey>))
    ensures r.0.global == d.global && r.0.counter == d.counter
    ensures r.0.serverSigningKeys.Keys == d.serverSigningKeys.Keys + {origin}
    ensures forall s :: s in d.serverSigningKeys && s != origin ==> r.0.serverSigningKeys[s] == d.serverSigningKeys[s]
    ensures r.0.serverSigningKeys[origin].Decodable?
    ensures var stored := r.0.serverSigningKeys[origin].keys;
      var existing := ExistingKeys(d, origin, now);
      && stored.serverName == existing.serverName && stored.validUntilTs == existing.validUntilTs
      && stored.verifyKeys.Keys == existing.verifyKeys.Keys + incoming.verifyKeys.Keys
      && stored.oldVerifyKeys.Keys == existing.oldVerifyKeys.Keys + incoming.oldVerifyKeys.Keys
      && (forall id :: id in incoming.verifyKeys ==> stored.verifyKeys[id] == incoming.verifyKeys[id])
      && (forall id :: id in incoming.oldVerifyKeys ==> stored.oldVerifyKeys[id] == incoming.oldVerifyKeys[id])
    ensures r.1 == SigningKeysFor(r.0, origin)
    ensures forall id :: id in r.1 <==> KeyPrecedence(ExistingKeys(d, origin, now), incoming, id).Some?
    ensures forall id :: id in r.1 ==> Some(r.1[id]) == KeyPrecedence(ExistingKeys(d, origin, now), incoming, id)
  {
    var existing := ExistingKeys(d, origin, now);
    var merged := existing.(verifyKeys := existing.verifyKeys + incoming.verifyKeys,
                            oldVerifyKeys := existing.oldVerifyKeys + incoming.oldVerifyKeys);
    var d' := d.(serverSigningKeys := d.serverSigningKeys[origin := Decodable(merged)]);
    (d', AllKeys(merged))
  }

  // ---------------------------------------------------------------- caches

  datatype Cache = AuthChainCache | AppserviceInRoomCache | LastTimelineCountCache

  /** The caches `clear_caches(amount)` empties. */
  function ClearedCaches(amount: u32): (r: set<Cache>)
    ensures AuthChainCache in r <==> amount > 1
    ensures AppserviceInRoomCache in r <==> amount > 2
    ensures LastTimelineCountCache in r <==> amount > 3
  {
    (if amount > 1 then {AuthChainCache} else {})
    + (if amount > 2 then {AppserviceInRoomCache} else {})
    + (if amount > 3 then {LastTimelineCountCache} else {})
  }

  /** The caches are cleared in a fixed order: a larger amount clears a superset, and
      `amount` clears `amount - 1` of them, up to all three. */
  lemma ClearedCachesGrow(amount: u32, larger: u32)
    requires amount <= larger
    ensures ClearedCaches(amount) <= ClearedCaches(larger)
    ensures |ClearedCaches(amount)| == if amount <= 1 then 0 else if amount >= 4 then 3 else amount - 1
  {
    var r := ClearedCaches(amount);
    if amount <= 1 {
      assert r == {};
    } else if amount == 2 {
      assert r == {AuthChainCache};
    } else if amount == 3 {
      assert r == {AuthChainCache, AppserviceInRoomCache};
    } else {
      assert r == {AuthChainCache, AppserviceInRoomCache, LastTimelineCountCache};
    }
  }

  // ---------------------------------------------------------------- watch prefixes

  datatype WatchedTree =
    | TodeviceidEvents | UserroomidJoined | UserroomidInvitestate | UserroomidLeftstate
    | UserroomidNotificationcount | UserroomidHighlightcount | PduidPdu | ReadreceiptidReadreceipt
    | KeychangeidUserid | RoomusertypeRoomuserdataid | UseridLastonetimekeyupdate

  /** One of the futures `watch` races: a prefix watch on a tree, a typing update in a room,
      or the shutdown signal. */
  datatype Watcher = PrefixWatch(tree: WatchedTree, prefix: seq<byte>) | TypingUpdate(roomId: seq<byte>) | ShutdownSignal

  /** A room the user has joined, with its short room id. */
  datatype JoinedRoom = JoinedRoom(roomId: seq<byte>, shortRoomId: u64)

  function RoomWatchers(room: JoinedRoom, userId: seq<byte>): (r: seq<Watcher>)
    ensures |r| == 5
  {
    var roomPrefix := room.roomId + [SEPARATOR];
    [ PrefixWatch(PduidPdu, ToBeBytes(room.shortRoomId)),
      TypingUpdate(room.roomId),
      PrefixWatch(ReadreceiptidReadreceipt, roomPrefix),
      PrefixWatch(KeychangeidUserid, roomPrefix),
      PrefixWatch(RoomusertypeRoomuserdataid, roomPrefix + userId + [SEPARATOR]) ]
  }

  function RoomsWatchers(rooms: seq<JoinedRoom>, userId: seq<byte>): (r: seq<Watcher>)
    ensures |r| == 5 * |rooms|
    ensures forall j, m :: 0 <= j < |rooms| && 0 <= m < 5 ==> r[5 * j + m] == RoomWatchers(rooms[j], userId)[m]
  {
    if |rooms| == 0 then []
    else
      var rest := RoomsWatchers(rooms[1..], userId);
      var r := RoomWatchers(rooms[0], userId) + rest;
      forall j, m | 1 <= j < |rooms| && 0 <= m < 5
        ensures r[5 * j + m] == RoomWatchers(rooms[j], userId)[m]
      {
        assert r[5 * j + m] == rest[5 * (j - 1) + m];
        assert rooms[1..][j - 1] == rooms[j];
      }
      r
  }

  /** The futures `watch` builds for `userId` on `deviceId`, in the order it builds them. */
  function WatchPrefixes(userId: seq<byte>, deviceId: seq<byte>, rooms: seq<JoinedRoom>): (r: seq<Watcher>)
    ensures |r| == 6 + 5 * |rooms| + 4
    ensures r[0] == PrefixWatch(TodeviceidEvents, userId + [SEPARATOR] + deviceId + [SEPARATOR])
    ensures r[1..6] == [ PrefixWatch(UserroomidJoined, userId + [SEPARATOR]),
                         PrefixWatch(UserroomidInvitestate, userId + [SEPARATOR]),
                         PrefixWatch(UserroomidLeftstate, userId + [SEPARATOR]),
                         PrefixWatch(UserroomidNotificationcount, userId + [SEPARATOR]),
                         PrefixWatch(UserroomidHighlightcount, userId + [SEPARATOR]) ]
    ensures forall j :: 0 <= j < |rooms| ==>
      && r[6 + 5 * j] == PrefixWatch(PduidPdu, ToBeBytes(rooms[j].shortRoomId))
      && r[6 + 5 * j + 1] == TypingUpdate(rooms[j].roomId)
      && r[6 + 5 * j + 2] == PrefixWatch(ReadreceiptidReadreceipt, rooms[j].roomId + [SEPARATOR])
      && r[6 + 5 * j + 3] == PrefixWatch(KeychangeidUserid, rooms[j].roomId + [SEPARATOR])
      && r[6 + 5 * j + 4] == PrefixWatch(RoomusertypeRoomuserdataid, rooms[j].roomId + [SEPARATOR] + userId + [SEPARATOR])
    ensures r[|r| - 4..] == [ PrefixWatch(RoomusertypeRoomuserdataid, [SEPARATOR] + userId + [SEPARATOR]),
                              PrefixWatch(KeychangeidUserid, userId + [SEPARATOR]),
                              PrefixWatch(UseridLastonetimekeyupdate, userId),
                              ShutdownSignal ]
  {
    var userPrefix := userId + [SEPARATOR];
    var own :=
      [ PrefixWatch(TodeviceidEvents, userPrefix + deviceId + [SEPARATOR]),
        PrefixWatch(UserroomidJoined, userPrefix),
        PrefixWatch(UserroomidInvitestate, userPrefix),
        PrefixWatch(UserroomidLeftstate, userPrefix),
        PrefixWatch(UserroomidNotificationcount, userPrefix),
        PrefixWatch(UserroomidHighlightcount, userPrefix) ];
    var perRoom := RoomsWatchers(rooms, userId);
    var global :=
      [ PrefixWatch(RoomusertypeRoomuserdataid, [SEPARATOR] + userPrefix),
        PrefixWatch(KeychangeidUserid, userPrefix),
        PrefixWatch(UseridLastonetimekeyupdate, userId),
        ShutdownSignal ];
    var r := own + perRoom + global;
    forall j | 0 <= j < |rooms|
      ensures r[6 + 5 * j] == PrefixWatch(PduidPdu, ToBeBytes(rooms[j].shortRoomId))
      ensures r[6 + 5 * j + 1] == TypingUpdate(rooms[j].roomId)
      ensures r[6 + 5 * j + 2] == PrefixWatch(ReadreceiptidReadreceipt, rooms[j].roomId + [SEPARATOR])
      ensures r[6 + 5 * j + 3] == PrefixWatch(KeychangeidUserid, rooms[j].roomId + [SEPARATOR])
      ensures r[6 + 5 * j + 4] == PrefixWatch(RoomusertypeRoomuserdataid, rooms[j].roomId + [SEPARATOR] + userId + [SEPARATOR])
    {
      var w := RoomWatchers(rooms[j], userId);
      assert r[6 + 5 * j] == perRoom[5 * j + 0] == w[0];
      assert r[6 + 5 * j + 1] == perRoom[5 * j + 1] == w[1];
      assert r[6 + 5 * j + 2] == perRoom[5 * j + 2] == w[2];
      assert r[6 + 5 * j + 3] == perRoom[5 * j + 3] == w[3];
      assert r[6 + 5 * j + 4] == perRoom[5 * j + 4] == w[4];
    }
    assert r[1..6] == own[1..];
    assert r[|r| - 4..] == global;
    assert [SEPARATOR] + userPrefix == [SEPARATOR] + userId + [SEPARATOR];
    r
  }

  /** Because identifiers never contain `0xFF`, a room-account-data prefix splits back into
      the room id and the user id, and a PDU prefix reads back as the short room id. */
  lemma WatchPrefixesDecode(room: JoinedRoom, userId: seq<byte>)
    requires SEPARATOR !in room.roomId && SEPARATOR !in userId
    ensures SplitAll(room.roomId + [SEPARATOR] + userId + [SEPARATOR], SEPARATOR) == [room.roomId, userId, []]
    ensures U64FromBytes(ToBeBytes(room.shortRoomId)) == Some(room.shortRoomId)
  {
    var parts: seq<seq<byte>> := [room.roomId, userId, []];
    assert Join(parts, SEPARATOR) == room.roomId + [SEPARATOR] + userId + [SEPARATOR] by {
      assert Join(parts[2..], SEPARATOR) == [];
      assert Join(parts[1..], SEPARATOR) == userId + [SEPARATOR] + [];
    }
    SplitAllOfJoin(parts, SEPARATOR);
    U64RoundTrip(room.shortRoomId);
  }
}
