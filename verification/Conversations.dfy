/** Conversations on the server: members, roles, bans, invites, encryption epochs and the stored
    group trees. Each function gives the outcome of one whole transaction; a transaction that
    fails is rolled back, so an error carries no new database. */
module Conversations {
  import opened Options

  type UserId = nat
  type ConversationId = nat
  type DeviceId = nat
  type Phone = string
  type Code = string

  datatype Kind = Dm | Group | PhoneDm

  datatype Encryption = Plaintext | PendingE2ee | Encrypted | CarrierPlaintext

  datatype Role = Owner | Admin | Member

  datatype Leaf = Leaf(user: UserId, device: DeviceId, key: string)

  /** The stored tree of a group. Its leaves are kept sorted, so they are determined as a set. */
  datatype Tree = Tree(epoch: nat, leaves: set<Leaf>)

  datatype Conversation = Conversation(
    kind: Kind,
    encryption: Encryption,
    epoch: nat,
    mls: bool,
    mlsEpoch: nat,
    tree: Option<Tree>,
    members: map<UserId, Role>,
    bans: set<UserId>,
    external: Option<Phone>)

  datatype Invite = Invite(conversation: ConversationId, maxUses: nat, useCount: nat, expiresAt: int, revoked: bool)

  datatype Keys = Keys(fingerprint: string, agreement: string)

  datatype Device = Device(user: UserId, capable: bool, published: Option<Keys>)

  datatype Database = Database(
    conversations: map<ConversationId, Conversation>,
    invites: map<Code, Invite>,
    devices: map<DeviceId, Device>)

  datatype Refusal =
    | ConversationNotFound
    | InvalidType
    | NotSupported      // membership changes are for groups
    | Forbidden
    | UserBanned
    | LastOwnerRequired
    | NotReady          // a member has no device that can take part in encryption
    | InviteNotFound
    | Duplicate         // a unique column already holds the value
    | DeviceNotOwned
    | CapabilityRequired
    | PhoneRequired

  datatype Result<+T> = Ok(value: T) | Err(refusal: Refusal)

  const DEFAULT_INVITE_TTL: int := 7 * 24 * 60 * 60

  // ---- rows ----

  predicate IsMember(db: Database, id: ConversationId, u: UserId) {
    id in db.conversations && u in db.conversations[id].members
  }

  predicate CanManage(r: Role) {
    r == Owner || r == Admin
  }

  function Owners(c: Conversation): set<UserId> {
    set u | u in c.members && c.members[u] == Owner
  }

  predicate CanEncrypt(devices: map<DeviceId, Device>, u: UserId) {
    exists d :: d in devices && devices[d].user == u && devices[d].capable && devices[d].published.Some?
  }

  predicate Ready(c: Conversation, devices: map<DeviceId, Device>) {
    c.members.Keys != {} && forall u :: u in c.members ==> CanEncrypt(devices, u)
  }

  /** The users a request names: items that are not a user id are skipped. */
  function Named(items: seq<Option<UserId>>): set<UserId> {
    set i | 0 <= i < |items| && items[i].Some? :: items[i].value
  }

  function Joined(c: Conversation, users: set<UserId>): Conversation {
    c.(members := map u | u in c.members.Keys + users :: if u in c.members then c.members[u] else Member)
  }

  function Left(c: Conversation, u: UserId): Conversation {
    c.(members := c.members - {u})
  }

  function LeavesOf(users: set<UserId>, devices: map<DeviceId, Device>): set<Leaf> {
    set d | d in devices && devices[d].user in users && devices[d].capable && devices[d].published.Some?
      :: Leaf(devices[d].user, d, devices[d].published.value.agreement)
  }

  // ---- epochs and trees ----

  function BuildTree(c: Conversation, devices: map<DeviceId, Device>, epoch: nat): Tree {
    Tree(epoch, LeavesOf(c.members.Keys, devices))
  }

  function Synced(c: Conversation, devices: map<DeviceId, Device>, epoch: nat): Conversation {
    c.(tree := Some(BuildTree(c, devices, epoch)), mls := true, mlsEpoch := epoch)
  }

  function Bumped(c: Conversation): Conversation {
    if c.kind == Group && c.encryption == Encrypted then
      c.(epoch := c.epoch + 1, mlsEpoch := if c.mls then c.mlsEpoch + 1 else c.mlsEpoch)
    else c
  }

  /** What follows a change of the member list. */
  function Rekeyed(c: Conversation, devices: map<DeviceId, Device>): Conversation {
    var b := Bumped(c);
    if b.mls then Synced(b, devices, b.mlsEpoch) else b
  }

  // ---- transactions ----

  function Stored(db: Database, id: ConversationId, c: Conversation): Database {
    db.(conversations := db.conversations[id := c])
  }

  /** Groups are created encrypted whatever the request says. */
  function InitialEncryption(kind: Kind, requested: Encryption): Encryption {
    if kind == Group then Encrypted else requested
  }

  /** Whoever creates a group owns it. */
  function InitialMembers(actor: UserId, kind: Kind, participants: seq<Option<UserId>>): map<UserId, Role> {
    map u | u in {actor} + Named(participants) :: if u == actor && kind == Group then Owner else Member
  }

  function CreateConversation(db: Database, id: ConversationId, actor: UserId, kind: Kind,
                              participants: seq<Option<UserId>>, requested: Encryption): Result<Database> {
    if kind == PhoneDm then Err(InvalidType)
    else if id in db.conversations then Err(Duplicate)
    else
      var encryption := InitialEncryption(kind, requested);
      var epoch := if encryption == Encrypted then 1 else 0;
      var c := Conversation(kind, encryption, epoch, kind == Group, epoch, None,
                            InitialMembers(actor, kind, participants), {}, None);
      Ok(Stored(db, id, if c.mls then Synced(c, db.devices, epoch) else c))
  }

  function FindOrCreatePhoneDm(db: Database, id: ConversationId, actor: UserId, phone: Phone,
                               registered: Option<UserId>): Result<Database> {
    if phone == "" then Err(PhoneRequired)
    else if registered.Some? && registered.value != actor && CanEncrypt(db.devices, registered.value) then
      var target := registered.value;
      if exists k :: k in db.conversations && db.conversations[k].external.None?
                     && actor in db.conversations[k].members && target in db.conversations[k].members then Ok(db)
      else if id in db.conversations then Err(Duplicate)
      else Ok(Stored(db, id, Conversation(Dm, Plaintext, 0, false, 0, None,
                                          map[actor := Member, target := Member], {}, None)))
    else
      if exists k :: k in db.conversations && db.conversations[k].kind == PhoneDm
                     && db.conversations[k].external == Some(phone) && actor in db.conversations[k].members then Ok(db)
      else if id in db.conversations then Err(Duplicate)
      else Ok(Stored(db, id, Conversation(PhoneDm, CarrierPlaintext, 0, false, 0, None,
                                          map[actor := Member], {}, Some(phone))))
  }

  /** The state a request asks for: a carrier thread is always carrier plaintext. */
  function Normalized(kind: Kind, requested: Encryption): Encryption {
    if kind == PhoneDm then CarrierPlaintext else requested
  }

  /** The columns after the update statement, before the tree is rebuilt. */
  function WithEncryption(c: Conversation, next: Encryption): Conversation {
    if next == Encrypted then
      var bump := if c.encryption != Encrypted then 1 else 0;
      c.(encryption := Encrypted, epoch := c.epoch + bump, mls := c.mls || c.kind == Group,
         mlsEpoch := if c.kind == Group then c.mlsEpoch + bump else c.mlsEpoch)
    else if c.kind == Group then c.(encryption := next, mls := false, mlsEpoch := 0)
    else c.(encryption := next)
  }

  /** The epoch a rebuilt tree is stored under, with the source's fallback. */
  function TargetEpoch(c: Conversation): nat {
    if c.mlsEpoch <= 0 then c.epoch else c.mlsEpoch
  }

  function UpdateMetadata(db: Database, actor: UserId, id: ConversationId, requested: Option<Encryption>): Result<Database> {
    if !IsMember(db, id, actor) then Err(ConversationNotFound)
    else
      var c := db.conversations[id];
      if c.kind == Group && !CanManage(c.members[actor]) then Err(Forbidden)
      else
        var next := if requested.Some? then Normalized(c.kind, requested.value) else c.encryption;
        if requested.Some? && next == Encrypted && !Ready(c, db.devices) then Err(NotReady)
        else
          var updated := if requested.Some? then WithEncryption(c, next) else c;
          Ok(Stored(db, id, if updated.mls then Synced(updated, db.devices, TargetEpoch(updated)) else updated))
  }

  function AddMembers(db: Database, actor: UserId, id: ConversationId, users: seq<Option<UserId>>): Result<Database> {
    if !IsMember(db, id, actor) then Err(ConversationNotFound)
    else
      var c := db.conversations[id];
      if c.kind != Group then Err(NotSupported)
      else if !CanManage(c.members[actor]) then Err(Forbidden)
      else if !(Named(users) !! c.bans) then Err(UserBanned)
      else if Named(users) <= c.members.Keys then Ok(db)
      else Ok(Stored(db, id, Rekeyed(Joined(c, Named(users)), db.devices)))
  }

  function UpdateMemberRole(db: Database, actor: UserId, id: ConversationId, target: UserId, role: Role): Result<Database> {
    if !IsMember(db, id, actor) then Err(ConversationNotFound)
    else
      var c := db.conversations[id];
      if c.kind != Group then Err(NotSupported)
      else if c.members[actor] != Owner then Err(Forbidden)
      else if target !in c.members then Err(ConversationNotFound)
      else if c.members[target] == Owner && role != Owner && |Owners(c)| <= 1 then Err(LastOwnerRequired)
      else Ok(Stored(db, id, c.(members := c.members[target := role])))
  }

  function RemoveMember(db: Database, actor: UserId, id: ConversationId, target: UserId): Result<Database> {
    if !IsMember(db, id, actor) then Err(ConversationNotFound)
    else
      var c := db.conversations[id];
      if c.kind != Group then Err(NotSupported)
      else if target !in c.members then Err(ConversationNotFound)
      else if target != actor && !CanManage(c.members[actor]) then Err(Forbidden)
      else if target != actor && c.members[actor] == Admin && c.members[target] != Member then Err(Forbidden)
      else if c.members[target] == Owner && |Owners(c)| <= 1 then Err(LastOwnerRequired)
      else Ok(Stored(db, id, Rekeyed(Left(c, target), db.devices)))
  }

  /** A ban takes the member out without touching epochs or the tree. */
  function BanMember(db: Database, actor: UserId, id: ConversationId, target: UserId): Result<Database> {
    if !IsMember(db, id, actor) then Err(ConversationNotFound)
    else
      var c := db.conversations[id];
      if c.kind != Group || !CanManage(c.members[actor]) then Err(Forbidden)
      else if target !in c.members then Err(ConversationNotFound)
      else if c.members[actor] == Admin && c.members[target] != Member then Err(Forbidden)
      else if c.members[target] == Owner && |Owners(c)| <= 1 then Err(LastOwnerRequired)
      else Ok(Stored(db, id, Left(c, target).(bans := c.bans + {target})))
  }

  function UnbanMember(db: Database, actor: UserId, id: ConversationId, target: UserId): Result<Database> {
    if !IsMember(db, id, actor) then Err(ConversationNotFound)
    else
      var c := db.conversations[id];
      if c.kind != Group || !CanManage(c.members[actor]) then Err(Forbidden)
      else Ok(Stored(db, id, c.(bans := c.bans - {target})))
  }

  function CreateInvite(db: Database, actor: UserId, id: ConversationId, code: Code, maxUses: int, ttl: int, now: int): Result<Database> {
    if !IsMember(db, id, actor) then Err(ConversationNotFound)
    else
      var c := db.conversations[id];
      if c.kind != Group || !CanManage(c.members[actor]) then Err(Forbidden)
      else if code in db.invites then Err(Duplicate)
      else
        var uses := if maxUses <= 0 then 1 else maxUses;
        var expires := now + if ttl <= 0 then DEFAULT_INVITE_TTL else ttl;
        Ok(db.(invites := db.invites[code := Invite(id, uses, 0, expires, false)]))
  }

  predicate Redeemable(i: Invite, now: int) {
    !i.revoked && i.expiresAt > now && (i.maxUses == 0 || i.useCount < i.maxUses)
  }

  function Used(i: Invite): Invite {
    i.(useCount := i.useCount + 1, revoked := i.revoked || (i.maxUses > 0 && i.useCount + 1 >= i.maxUses))
  }

  /** Joining by invite, like a ban, leaves epochs and tree alone. */
  function RedeemInvite(db: Database, actor: UserId, code: Code, now: int): Result<Database> {
    if code !in db.invites || !Redeemable(db.invites[code], now) then Err(InviteNotFound)
    else
      var id := db.invites[code].conversation;
      if IsMember(db, id, actor) then Ok(db)
      else if id !in db.conversations then Err(ConversationNotFound)
      else
        var c := db.conversations[id];
        if c.kind != Group then Err(InviteNotFound)
        else if actor in c.bans then Err(UserBanned)
        else Ok(Stored(db, id, Joined(c, {actor})).(invites := db.invites[code := Used(db.invites[code])]))
  }

  /** A carrier thread whose external contact turns out to be one of its members. */
  function Converted(c: Conversation, actor: UserId, phone: Option<Phone>): Conversation {
    if phone.Some? && c.external == phone && actor in c.members then
      c.(kind := Dm, external := None, encryption := if c.encryption == CarrierPlaintext then Plaintext else c.encryption)
    else c
  }

  /** A conversation of a user whose device key has changed. */
  function Refreshed(c: Conversation, actor: UserId, devices: map<DeviceId, Device>): Conversation {
    if c.encryption == Encrypted && actor in c.members then
      if c.kind == Group && c.mls then
        var b := c.(epoch := c.epoch + 1, mlsEpoch := c.mlsEpoch + 1);
        b.(tree := Some(BuildTree(b, devices, b.mlsEpoch)))
      else c.(epoch := c.epoch + 1)
    else c
  }

  function PublishBundle(db: Database, actor: UserId, device: DeviceId, keys: Keys, phone: Option<Phone>): Result<Database> {
    if device !in db.devices || db.devices[device].user != actor then Err(DeviceNotOwned)
    else if !db.devices[device].capable then Err(CapabilityRequired)
    else
      var prior := db.devices[device].published;
      var changed := prior.None? || prior.value.fingerprint != keys.fingerprint;
      var devices := db.devices[device := db.devices[device].(published := Some(keys))];
      Ok(db.(devices := devices,
             conversations := map id | id in db.conversations ::
               var c := Converted(db.conversations[id], actor, phone);
               if changed then Refreshed(c, actor, devices) else c))
  }

  /** Signing in with a phone number: a new device, and membership of every thread with that contact. */
  function VerifyPhone(db: Database, user: UserId, phone: Phone, device: DeviceId, capable: bool): Result<Database> {
    if device in db.devices then Err(Duplicate)
    else Ok(db.(devices := db.devices[device := Device(user, capable, None)],
                conversations := map id | id in db.conversations ::
                  var c := db.conversations[id];
                  if c.external == Some(phone) then Joined(c, {user}) else c))
  }
}
