/** The globals service: start-up (`build`), the supported room versions and the default-version
    fallback, signing keys with the server's own key injected, the CIDR denylist, locality of
    server names and user ids, and the admin alias and server user. */
module Globals {
  import opened Wrappers
  import opened Core
  import opened Seqs
  import opened Bytes
  import GlobalsData

  const STABLE_ROOM_VERSIONS: seq<RoomVersion> := [V6, V7, V8, V9, V10, V11]
  const UNSTABLE_ROOM_VERSIONS: seq<RoomVersion> := [V2, V3, V4, V5]

  /** An address as its bits (32 for IPv4, 128 for IPv6). */
  datatype IpAddress = IpAddress(bits: seq<bool>)

  /** A CIDR range: a network address and the length of its prefix. */
  datatype Cidr = Cidr(network: seq<bool>, prefixLength: nat)

  /** `cidr.includes(ip)`: same address family and the same leading `prefixLength` bits. */
  predicate Includes(cidr: Cidr, ip: IpAddress)
  {
    && |cidr.network| == |ip.bits|
    && cidr.prefixLength <= |ip.bits|
    && cidr.network[..cidr.prefixLength] == ip.bits[..cidr.prefixLength]
  }

  /** The configuration fields the modelled code reads. */
  datatype Config = Config(
    serverName: ServerName,
    defaultRoomVersion: RoomVersion,
    allowUnstableRoomVersions: bool,
    ipRangeDenylist: seq<Cidr>)

  datatype Service = Service(
    db: GlobalsData.Data,
    config: Config,
    cidrRangeDenylist: seq<Cidr>,
    keypair: GlobalsData.Keypair,
    stableRoomVersions: seq<RoomVersion>,
    unstableRoomVersions: seq<RoomVersion>,
    serverUser: UserId,
    adminAlias: string)

  /** The number of a numbered room version. */
  function VersionNumber(v: RoomVersion): Option<nat>
  {
    match v
    case V1 => Some(1) case V2 => Some(2) case V3 => Some(3) case V4 => Some(4)
    case V5 => Some(5) case V6 => Some(6) case V7 => Some(7) case V8 => Some(8)
    case V9 => Some(9) case V10 => Some(10) case V11 => Some(11)
    case CustomVersion(_) => None
  }

  /** The stable versions are exactly 6 to 11 and the unstable ones exactly 2 to 5. */
  lemma RoomVersionLists(v: RoomVersion)
    ensures v in STABLE_ROOM_VERSIONS <==> VersionNumber(v).Some? && 6 <= VersionNumber(v).value <= 11
    ensures v in UNSTABLE_ROOM_VERSIONS <==> VersionNumber(v).Some? && 2 <= VersionNumber(v).value <= 5
  {
    match v
    case V1 => case V2 => case V3 => case V4 => case V5 => case V6 =>
    case V7 => case V8 => case V9 => case V10 => case V11 => case CustomVersion(_) =>
  }

  /** `supported_room_versions`: the stable list in order, then the unstable list when unstable
      versions are allowed, and nothing else. */
  function SupportedRoomVersions(s: Service): (r: seq<RoomVersion>)
    ensures |r| == |s.stableRoomVersions| + (if s.config.allowUnstableRoomVersions then |s.unstableRoomVersions| else 0)
    ensures r[..|s.stableRoomVersions|] == s.stableRoomVersions
    ensures s.config.allowUnstableRoomVersions ==> r[|s.stableRoomVersions|..] == s.unstableRoomVersions
    ensures forall v :: v in r <==> v in s.stableRoomVersions || (s.config.allowUnstableRoomVersions && v in s.unstableRoomVersions)
  {
    s.stableRoomVersions + (if s.config.allowUnstableRoomVersions then s.unstableRoomVersions else [])
  }

  /** The version `build` settles on: the configured one when it is supported, else the fallback. */
  function ChooseDefaultRoomVersion(configured: RoomVersion, supported: seq<RoomVersion>, fallback: RoomVersion): (r: RoomVersion)
    ensures configured in supported ==> r == configured
    ensures configured !in supported ==> r == fallback
    ensures fallback in supported ==> r in supported
  {
    if configured in supported then configured else fallback
  }

  /** Choosing again changes nothing once the fallback itself is supported. */
  lemma ChooseDefaultRoomVersionIdempotent(configured: RoomVersion, supported: seq<RoomVersion>, fallback: RoomVersion)
    requires fallback in supported
    ensures var once := ChooseDefaultRoomVersion(configured, supported, fallback);
      ChooseDefaultRoomVersion(once, supported, fallback) == once
  {
  }

  function AdminAlias(serverName: ServerName): string
  {
    "#admins:" + serverName
  }

  function ServerUser(serverName: ServerName): UserId
  {
    "@conduit:" + serverName
  }

  /** `build`: open the counter, load (or create) the keypair, fix the room-version lists and
      the admin identities, and fall back to `fallback` when the configured default room
      version is not supported. A keypair that does not decode is deleted and start-up fails. */
  function Build(
    global: GlobalsData.Tree, signingKeys: map<ServerName, GlobalsData.StoredKeys>, config: Config,
    fallback: RoomVersion, generatedKeypair: seq<byte>, dec: GlobalsData.KeyDecoders)
    : (r: (GlobalsData.Tree, Result<Service, Error>))
    ensures r.1.Ok? ==>
      var s := r.1.value;
      && s.stableRoomVersions == STABLE_ROOM_VERSIONS
      && s.unstableRoomVersions == UNSTABLE_ROOM_VERSIONS
      && s.adminAlias == AdminAlias(config.serverName)
      && s.serverUser == ServerUser(config.serverName)
      && s.cidrRangeDenylist == config.ipRangeDenylist
      && GlobalsData.CounterInSync(s.db)
      && s.db.global == r.0
      && s.config == config.(defaultRoomVersion := s.config.defaultRoomVersion)
      && (config.defaultRoomVersion in SupportedRoomVersions(s) ==> s.config.defaultRoomVersion == config.defaultRoomVersion)
      && (config.defaultRoomVersion !in SupportedRoomVersions(s) ==> s.config.defaultRoomVersion == fallback)
    ensures r.1.Err? && GlobalsData.NewData(global, signingKeys).Ok? ==> GlobalsData.KEYPAIR !in r.0
    ensures GlobalsData.NewData(global, signingKeys).Err? ==> r == (global, Err(GlobalsData.NewData(global, signingKeys).error))
    ensures GlobalsData.NewData(global, signingKeys).Ok? ==>
      var loaded := GlobalsData.LoadKeypair(GlobalsData.NewData(global, signingKeys).value, generatedKeypair, dec);
      && (r.1.Ok? <==> loaded.1.Ok?)
      && (r.1.Ok? ==> r.1.value.keypair == loaded.1.value && r.1.value.db == loaded.0)
      && (r.1.Err? ==> r == (loaded.0.global - {GlobalsData.KEYPAIR}, Err(loaded.1.error)))
    ensures r.1.Ok? ==> r.1.value.db.serverSigningKeys == signingKeys
  {
    match GlobalsData.NewData(global, signingKeys)
    case Err(e) => (global, Err(e))
    case Ok(db) =>
      var (db', keypair) := GlobalsData.LoadKeypair(db, generatedKeypair, dec);
      GlobalsData.OtherKeysKeepCounterInSync(db, db', GlobalsData.KEYPAIR);
      match keypair
      case Err(e) => (GlobalsData.RemoveKeypair(db').global, Err(e))
      case Ok(kp) =>
        var s := Service(db', config, config.ipRangeDenylist, kp, STABLE_ROOM_VERSIONS, UNSTABLE_ROOM_VERSIONS,
                         ServerUser(config.serverName), AdminAlias(config.serverName));
        var chosen := ChooseDefaultRoomVersion(config.defaultRoomVersion, SupportedRoomVersions(s), fallback);
        (db'.global, Ok(s.(config := config.(defaultRoomVersion := chosen))))
  }

  /** Start-up with a readable counter, by what is stored under the keypair key: a blob that
      decodes becomes the service's keypair and nothing is written; a blob that does not decode
      is deleted and its decoding error returned; with no blob the generated one is stored and
      used, or deleted again when it does not decode either. */
  lemma BuildKeypairOutcome(
    global: GlobalsData.Tree, signingKeys: map<ServerName, GlobalsData.StoredKeys>, config: Config,
    fallback: RoomVersion, generatedKeypair: seq<byte>, dec: GlobalsData.KeyDecoders)
    requires GlobalsData.COUNTER !in global || |global[GlobalsData.COUNTER]| == 8
    ensures var r := Build(global, signingKeys, config, fallback, generatedKeypair, dec);
      var blob := if GlobalsData.KEYPAIR in global then global[GlobalsData.KEYPAIR] else generatedKeypair;
      var decoded := GlobalsData.DecodeKeypair(blob, dec);
      && (decoded.Ok? ==> r.1.Ok? && r.1.value.keypair == decoded.value && r.0 == global[GlobalsData.KEYPAIR := blob])
      && (decoded.Err? ==> r == (global - {GlobalsData.KEYPAIR}, Err(decoded.error)))
  {
    var d := GlobalsData.NewData(global, signingKeys).value;
    if GlobalsData.KEYPAIR in global {
      assert global[GlobalsData.KEYPAIR := global[GlobalsData.KEYPAIR]] == global;
    } else {
      assert global[GlobalsData.KEYPAIR := generatedKeypair] - {GlobalsData.KEYPAIR} == global - {GlobalsData.KEYPAIR};
    }
  }

  /** The key id under which the server publishes its own key. */
  function OwnKeyId(keypair: GlobalsData.Keypair): KeyId
  {
    "ed25519:" + keypair.version
  }

  /** `signing_keys_for`: the stored keys, plus, for this server's own name, its current public
      key under `ed25519:<version>`, replacing any stored entry with that id. `None` is the
      panic of the `expect` when `ed25519:<version>` is not a valid key id (`keyIdIsValid`,
      ruma's parser); it is only reached for this server's own name. */
  function SigningKeysFor(s: Service, origin: ServerName, keyIdIsValid: string -> bool)
    : (r: Option<map<KeyId, GlobalsData.VerifyKey>>)
    ensures r.None? <==> origin == s.config.serverName && !keyIdIsValid(OwnKeyId(s.keypair))
    ensures origin != s.config.serverName ==> r == Some(GlobalsData.SigningKeysFor(s.db, origin))
    ensures origin == s.config.serverName && r.Some? ==>
      && r.value.Keys == GlobalsData.SigningKeysFor(s.db, origin).Keys + {OwnKeyId(s.keypair)}
      && r.value[OwnKeyId(s.keypair)] == GlobalsData.VerifyKey(s.keypair.publicKey)
      && (forall id :: id in r.value && id != OwnKeyId(s.keypair) ==> r.value[id] == GlobalsData.SigningKeysFor(s.db, origin)[id])
  {
    var keys := GlobalsData.SigningKeysFor(s.db, origin);
    if origin != s.config.serverName then Some(keys)
    else if !keyIdIsValid(OwnKeyId(s.keypair)) then None
    else Some(keys[OwnKeyId(s.keypair) := GlobalsData.VerifyKey(s.keypair.publicKey)])
  }

  /** `valid_cidr_range`: an address is acceptable unless some denylisted range includes it. */
  method ValidCidrRange(s: Service, ip: IpAddress) returns (valid: bool)
    ensures valid <==> forall i :: 0 <= i < |s.cidrRangeDenylist| ==> !Includes(s.cidrRangeDenylist[i], ip)
  {
    var i := 0;
    while i < |s.cidrRangeDenylist|
      invariant 0 <= i <= |s.cidrRangeDenylist|
      invariant forall j :: 0 <= j < i ==> !Includes(s.cidrRangeDenylist[j], ip)
    {
      if Includes(s.cidrRangeDenylist[i], ip) {
        return false;
      }
      i := i + 1;
    }
    return true;
  }

  function ServerIsOurs(config: Config, serverName: ServerName): bool
  {
    serverName == config.serverName
  }

  /** The server part of a user id: everything after its first `:`. */
  function UserServerName(userId: UserId): ServerName
    requires ':' in userId
  {
    SplitFirst(userId, ':').1.value
  }

  /** `user_is_local`: the user's server part is this server's name. */
  function UserIsLocal(config: Config, userId: UserId): bool
    requires ':' in userId
  {
    ServerIsOurs(config, UserServerName(userId))
  }

  /** A user id `localpart:server` is local exactly when `server` is this server's name. */
  lemma UserIsLocalIff(config: Config, localpart: string, server: ServerName)
    requires ':' !in localpart
    ensures ':' in localpart + ":" + server
    ensures UserIsLocal(config, localpart + ":" + server) <==> server == config.serverName
  {
    assert localpart + ":" + server == localpart + [':'] + server;
    SplitFirstOfConcat(localpart, ':', server);
  }

  /** The admin identities `build` creates belong to this server. */
  lemma AdminIdentitiesAreLocal(config: Config)
    ensures ':' in ServerUser(config.serverName)
    ensures UserServerName(ServerUser(config.serverName)) == config.serverName
    ensures UserIsLocal(config, ServerUser(config.serverName))
    ensures SplitFirst(AdminAlias(config.serverName), ':') == ("#admins", Some(config.serverName))
  {
    assert ServerUser(config.serverName) == "@conduit" + [':'] + config.serverName;
    SplitFirstOfConcat("@conduit", ':', config.serverName);
    assert AdminAlias(config.serverName) == "#admins" + [':'] + config.serverName;
    SplitFirstOfConcat("#admins", ':', config.serverName);
  }
}
