/** What every sequence of transactions keeps, starting from an empty database. */
module ConversationGuarantees {
  import opened Options
  import opened Conversations

  datatype Request =
    | Creating(id: ConversationId, actor: UserId, kind: Kind, participants: seq<Option<UserId>>, requested: Encryption)
    | OpeningPhoneDm(id: ConversationId, actor: UserId, phone: Phone, registered: Option<UserId>)
    | Updating(actor: UserId, id: ConversationId, next: Option<Encryption>)
    | Adding(actor: UserId, id: ConversationId, users: seq<Option<UserId>>)
    | ChangingRole(actor: UserId, id: ConversationId, target: UserId, role: Role)
    | Removing(actor: UserId, id: ConversationId, target: UserId)
    | Banning(actor: UserId, id: ConversationId, target: UserId)
    | Unbanning(actor: UserId, id: ConversationId, target: UserId)
    | Inviting(actor: UserId, id: ConversationId, code: Code, maxUses: int, ttl: int, now: int)
    | Redeeming(actor: UserId, code: Code, now: int)
    | Publishing(actor: UserId, device: DeviceId, keys: Keys, own: Option<Phone>)
    | Verifying(user: UserId, phone: Phone, device: DeviceId, capable: bool)

  function Transact(db: Database, r: Request): Result<Database> {
    match r
    case Creating(id, actor, kind, participants, requested) => CreateConversation(db, id, actor, kind, participants, requested)
    case OpeningPhoneDm(id, actor, phone, registered) => FindOrCreatePhoneDm(db, id, actor, phone, registered)
    case Updating(actor, id, next) => UpdateMetadata(db, actor, id, next)
    case Adding(actor, id, users) => AddMembers(db, actor, id, users)
    case ChangingRole(actor, id, target, role) => UpdateMemberRole(db, actor, id, target, role)
    case Removing(actor, id, target) => RemoveMember(db, actor, id, target)
    case Banning(actor, id, target) => BanMember(db, actor, id, target)
    case Unbanning(actor, id, target) => UnbanMember(db, actor, id, target)
    case Inviting(actor, id, code, maxUses, ttl, now) => CreateInvite(db, actor, id, code, maxUses, ttl, now)
    case Redeeming(actor, code, now) => RedeemInvite(db, actor, code, now)
    case Publishing(actor, device, keys, own) => PublishBundle(db, actor, device, keys, own)
    case Verifying(user, phone, device, capable) => VerifyPhone(db, user, phone, device, capable)
  }

  /** The database after the first `k` requests; a refused one leaves it as it is. */
  function After(requests: seq<Request>, k: nat): Database
    requires k <= |requests|
  {
    if k == 0 then Database(map[], map[], map[])
    else
      var db := After(requests, k - 1);
      match Transact(db, requests[k - 1])
      case Ok(next) => next
      case Err(_) => db
  }

  // ---- the invariants ----

  /** MLS is on exactly for encrypted groups; then the epochs are ordered and the stored tree is
      the tree of the current MLS epoch. */
  predicate EpochsSound(c: Conversation) {
    && (c.mls <==> c.kind == Group && c.encryption == Encrypted)
    && (c.mls ==> 1 <= c.mlsEpoch <= c.epoch && c.tree.Some? && c.tree.value.epoch == c.mlsEpoch)
    && (c.encryption == Encrypted ==> 1 <= c.epoch)
    && (c.kind == Group && !c.mls ==> c.mlsEpoch == 0)
  }

  /** A group has an owner, and nobody is a member and banned. */
  predicate MembersSound(c: Conversation) {
    && (c.kind == Group ==> exists u :: u in c.members && c.members[u] == Owner)
    && (forall u :: u in c.bans ==> u !in c.members)
    && (c.kind != Group ==> c.bans == {})
    && (c.external.Some? ==> c.kind == PhoneDm)
  }

  predicate Sound(c: Conversation) {
    EpochsSound(c) && MembersSound(c)
  }

  /** A live invite has uses left, and a used-up one is revoked. */
  predicate InviteSound(i: Invite) {
    i.useCount <= i.maxUses && 1 <= i.maxUses && (i.revoked <==> i.useCount == i.maxUses)
  }

  ghost predicate SoundDatabase(db: Database) {
    && (forall id :: id in db.conversations ==> Sound(db.conversations[id]))
    && (forall code :: code in db.invites ==> InviteSound(db.invites[code]))
  }

  /** What a conversation can become: it stays a group, its epoch does not fall, and users leave
      the ban list only by `lifted`. */
  predicate Grows(c: Conversation, d: Conversation, lifted: set<UserId>) {
    && (c.kind == Group ==> d.kind == Group)
    && c.epoch <= d.epoch
    && c.bans <= d.bans + lifted
  }

  function Lifted(r: Request, id: ConversationId): set<UserId> {
    if r.Unbanning? && r.id == id then {r.target} else {}
  }

  ghost predicate GrowsAll(db: Database, next: Database, r: Request) {
    && (forall id :: id in db.conversations ==>
          id in next.conversations && Grows(db.conversations[id], next.conversations[id], Lifted(r, id)))
    && (forall code :: code in db.invites ==>
          && code in next.invites
          && next.invites[code].conversation == db.invites[code].conversation
          && next.invites[code].maxUses == db.invites[code].maxUses
          && db.invites[code].useCount <= next.invites[code].useCount)
  }

  // ---- single conversations ----

  lemma OwnerLeft(c: Conversation, target: UserId)
    requires c.kind == Group && exists u :: u in c.members && c.members[u] == Owner
    requires target in c.members && c.members[target] == Owner ==> |Owners(c)| > 1
    ensures exists u :: u != target && u in c.members && c.members[u] == Owner
  {
    var owners := Owners(c);
    var u :| u in c.members && c.members[u] == Owner;
    if u == target {
      assert owners == {target} + (owners - {target});
      assert owners - {target} != {};
      var v :| v in owners - {target};
      assert v in c.members && c.members[v] == Owner;
    }
  }

  lemma RekeyedSound(c: Conversation, d: Conversation, devices: map<DeviceId, Device>)
    requires EpochsSound(c) && d == c.(members := d.members)
    ensures EpochsSound(Rekeyed(d, devices)) && Grows(c, Rekeyed(d, devices), {})
    ensures Rekeyed(d, devices).members == d.members && Rekeyed(d, devices).bans == c.bans
    ensures Rekeyed(d, devices).external == c.external && Rekeyed(d, devices).kind == c.kind
  {
  }

  lemma TreeEpoch(c: Conversation, devices: map<DeviceId, Device>, epoch: nat)
    ensures BuildTree(c, devices, epoch).epoch == epoch
  {
  }

  lemma JoinedSound(c: Conversation, users: set<UserId>)
    requires MembersSound(c) && users !! c.bans
    ensures MembersSound(Joined(c, users)) && Joined(c, users) == c.(members := Joined(c, users).members)
    ensures forall u :: u in c.members ==> Joined(c, users).members[u] == c.members[u]
  {
    var d := Joined(c, users);
    if c.kind == Group {
      var u :| u in c.members && c.members[u] == Owner;
      assert u in d.members && d.members[u] == Owner;
    }
  }

  lemma LeftSound(c: Conversation, target: UserId)
    requires Sound(c) && c.kind == Group && target in c.members
    requires c.members[target] == Owner ==> |Owners(c)| > 1
    ensures MembersSound(Left(c, target)) && Left(c, target) == c.(members := Left(c, target).members)
    ensures MembersSound(Left(c, target).(bans := c.bans + {target}))
  {
    OwnerLeft(c, target);
    var u :| u != target && u in c.members && c.members[u] == Owner;
    assert u in Left(c, target).members && Left(c, target).members[u] == Owner;
  }

  /** Turning encryption on or off; the fallback of the target epoch is never taken. */
  lemma UpdatedSound(c: Conversation, next: Encryption, devices: map<DeviceId, Device>)
    requires Sound(c)
    ensures var d := WithEncryption(c, next);
            && (d.mls ==> TargetEpoch(d) == d.mlsEpoch)
            && Sound(if d.mls then Synced(d, devices, TargetEpoch(d)) else d)
            && Grows(c, if d.mls then Synced(d, devices, TargetEpoch(d)) else d, {})
  {
  }

  lemma ResyncedSound(c: Conversation, devices: map<DeviceId, Device>)
    requires Sound(c) && c.mls
    ensures TargetEpoch(c) == c.mlsEpoch
    ensures Sound(Synced(c, devices, TargetEpoch(c))) && Grows(c, Synced(c, devices, TargetEpoch(c)), {})
  {
  }

  lemma PublishedSound(c: Conversation, actor: UserId, phone: Option<Phone>, devices: map<DeviceId, Device>)
    requires Sound(c)
    ensures Sound(Converted(c, actor, phone)) && Grows(c, Converted(c, actor, phone), {})
    ensures var d := Refreshed(Converted(c, actor, phone), actor, devices); Sound(d) && Grows(c, d, {})
  {
  }

  // ---- single transactions ----

  lemma StoredSound(db: Database, id: ConversationId, c: Conversation, r: Request)
    requires SoundDatabase(db) && Sound(c)
    requires id in db.conversations ==> Grows(db.conversations[id], c, Lifted(r, id))
    ensures SoundDatabase(Stored(db, id, c)) && GrowsAll(db, Stored(db, id, c), r)
  {
  }

  lemma Unchanged(db: Database, r: Request)
    ensures GrowsAll(db, db, r)
  {
  }

  lemma CreateSound(db: Database, r: Request)
    requires SoundDatabase(db) && r.Creating? && Transact(db, r).Ok?
    ensures SoundDatabase(Transact(db, r).value) && GrowsAll(db, Transact(db, r).value, r)
  {
    var c := Transact(db, r).value.conversations[r.id];
    TreeEpoch(c, db.devices, c.epoch);
    assert c.members == InitialMembers(r.actor, r.kind, r.participants);
    if r.kind == Group {
      assert r.actor in c.members && c.members[r.actor] == Owner;
    }
    StoredSound(db, r.id, c, r);
  }

  lemma PhoneDmSound(db: Database, r: Request)
    requires SoundDatabase(db) && r.OpeningPhoneDm? && Transact(db, r).Ok?
    ensures SoundDatabase(Transact(db, r).value) && GrowsAll(db, Transact(db, r).value, r)
  {
    hide Sound;
    var next := Transact(db, r).value;
    if next != db {
      var c := next.conversations[r.id];
      PlainSound(c);
      StoredSound(db, r.id, c, r);
    } else {
      Unchanged(db, r);
    }
  }

  lemma PlainSound(c: Conversation)
    requires c.kind != Group && c.encryption != Encrypted && !c.mls && c.bans == {} && (c.external.Some? ==> c.kind == PhoneDm)
    ensures Sound(c)
  {
  }

  lemma UpdateSound(db: Database, r: Request)
    requires SoundDatabase(db) && r.Updating? && Transact(db, r).Ok?
    ensures SoundDatabase(Transact(db, r).value) && GrowsAll(db, Transact(db, r).value, r)
  {
    hide Sound, Synced, Ready, WithEncryption, Grows, TargetEpoch;
    var c := db.conversations[r.id];
    if r.next.Some? {
      var next := Normalized(c.kind, r.next.value);
      UpdatedSound(c, next, db.devices);
      var d := WithEncryption(c, next);
      StoredSound(db, r.id, if d.mls then Synced(d, db.devices, TargetEpoch(d)) else d, r);
    } else if c.mls {
      ResyncedSound(c, db.devices);
      StoredSound(db, r.id, Synced(c, db.devices, TargetEpoch(c)), r);
    } else {
      SameGrows(c);
      StoredSound(db, r.id, c, r);
    }
  }

  lemma SameGrows(c: Conversation)
    ensures Grows(c, c, {})
  {
  }

  lemma AddSound(db: Database, r: Request)
    requires SoundDatabase(db) && r.Adding? && Transact(db, r).Ok?
    ensures SoundDatabase(Transact(db, r).value) && GrowsAll(db, Transact(db, r).value, r)
  {
    hide Rekeyed, Joined, Named;
    var c := db.conversations[r.id];
    if Named(r.users) <= c.members.Keys {
      Unchanged(db, r);
    } else {
      assert Sound(c) && Named(r.users) !! c.bans;
      JoinedSound(c, Named(r.users));
      RekeyedSound(c, Joined(c, Named(r.users)), db.devices);
      StoredSound(db, r.id, Rekeyed(Joined(c, Named(r.users)), db.devices), r);
    }
  }

  lemma RoleSound(db: Database, r: Request)
    requires SoundDatabase(db) && r.ChangingRole? && Transact(db, r).Ok?
    ensures SoundDatabase(Transact(db, r).value) && GrowsAll(db, Transact(db, r).value, r)
  {
    var c := db.conversations[r.id];
    var d := c.(members := c.members[r.target := r.role]);
    if r.role == Owner {
      assert r.target in d.members && d.members[r.target] == Owner;
    } else {
      OwnerLeft(c, r.target);
      var u :| u != r.target && u in c.members && c.members[u] == Owner;
      assert u in d.members && d.members[u] == Owner;
    }
    StoredSound(db, r.id, d, r);
  }

  lemma RemoveSound(db: Database, r: Request)
    requires SoundDatabase(db) && r.Removing? && Transact(db, r).Ok?
    ensures SoundDatabase(Transact(db, r).value) && GrowsAll(db, Transact(db, r).value, r)
  {
    hide Rekeyed, Left, Owners;
    var c := db.conversations[r.id];
    LeftSound(c, r.target);
    RekeyedSound(c, Left(c, r.target), db.devices);
    StoredSound(db, r.id, Rekeyed(Left(c, r.target), db.devices), r);
  }

  lemma BanSound(db: Database, r: Request)
    requires SoundDatabase(db) && r.Banning? && Transact(db, r).Ok?
    ensures SoundDatabase(Transact(db, r).value) && GrowsAll(db, Transact(db, r).value, r)
  {
    hide Left, Owners;
    var c := db.conversations[r.id];
    LeftSound(c, r.target);
    StoredSound(db, r.id, Left(c, r.target).(bans := c.bans + {r.target}), r);
  }

  lemma UnbanSound(db: Database, r: Request)
    requires SoundDatabase(db) && r.Unbanning? && Transact(db, r).Ok?
    ensures SoundDatabase(Transact(db, r).value) && GrowsAll(db, Transact(db, r).value, r)
  {
    var c := db.conversations[r.id];
    var d := c.(bans := c.bans - {r.target});
    assert d.members == c.members;
    StoredSound(db, r.id, d, r);
  }

  lemma RedeemSound(db: Database, r: Request)
    requires SoundDatabase(db) && r.Redeeming? && Transact(db, r).Ok?
    ensures SoundDatabase(Transact(db, r).value) && GrowsAll(db, Transact(db, r).value, r)
  {
    hide Joined, Sound;
    var next := Transact(db, r).value;
    if IsMember(db, db.invites[r.code].conversation, r.actor) {
      Unchanged(db, r);
    } else {
      var id := db.invites[r.code].conversation;
      var c := db.conversations[id];
      JoinedKeeps(c, {r.actor});
      StoredSound(db, id, Joined(c, {r.actor}), r);
    }
  }

  lemma JoinedKeeps(c: Conversation, users: set<UserId>)
    requires Sound(c) && users !! c.bans
    ensures Sound(Joined(c, users)) && Grows(c, Joined(c, users), {})
  {
    JoinedSound(c, users);
  }

  lemma PublishSound(db: Database, r: Request)
    requires SoundDatabase(db) && (r.Publishing? || r.Verifying?) && Transact(db, r).Ok?
    ensures SoundDatabase(Transact(db, r).value) && GrowsAll(db, Transact(db, r).value, r)
  {
    hide Converted, Refreshed, Joined, Sound, Grows;
    var next := Transact(db, r).value;
    assert next.conversations.Keys == db.conversations.Keys;
    forall id | id in db.conversations
      ensures Sound(next.conversations[id]) && Grows(db.conversations[id], next.conversations[id], {})
    {
      var c := db.conversations[id];
      if r.Publishing? {
        PublishedSound(c, r.actor, r.own, next.devices);
      } else {
        SameGrows(c);
        if c.external.Some? {
          NoBans(c);
          JoinedKeeps(c, {r.user});
        }
      }
    }
  }

  lemma NoBans(c: Conversation)
    requires Sound(c) && c.external.Some?
    ensures c.bans == {}
  {
  }

  lemma StepSound(db: Database, r: Request)
    requires SoundDatabase(db) && Transact(db, r).Ok?
    ensures SoundDatabase(Transact(db, r).value) && GrowsAll(db, Transact(db, r).value, r)
  {
    hide SoundDatabase, GrowsAll, CreateConversation, FindOrCreatePhoneDm, UpdateMetadata, AddMembers, UpdateMemberRole,
         RemoveMember, BanMember, UnbanMember, RedeemInvite, PublishBundle, VerifyPhone;
    match r
    case Creating(_, _, _, _, _) => CreateSound(db, r);
    case OpeningPhoneDm(_, _, _, _) => PhoneDmSound(db, r);
    case Updating(_, _, _) => UpdateSound(db, r);
    case Adding(_, _, _) => AddSound(db, r);
    case ChangingRole(_, _, _, _) => RoleSound(db, r);
    case Removing(_, _, _) => RemoveSound(db, r);
    case Banning(_, _, _) => BanSound(db, r);
    case Unbanning(_, _, _) => UnbanSound(db, r);
    case Inviting(_, _, _, _, _, _) => InviteSoundStep(db, r);
    case Redeeming(_, _, _) => RedeemSound(db, r);
    case Publishing(_, _, _, _) => PublishSound(db, r);
    case Verifying(_, _, _, _) => PublishSound(db, r);
  }

  lemma InviteSoundStep(db: Database, r: Request)
    requires SoundDatabase(db) && r.Inviting? && Transact(db, r).Ok?
    ensures SoundDatabase(Transact(db, r).value) && GrowsAll(db, Transact(db, r).value, r)
  {
  }

  // ---- whole runs ----

  /** In every reachable database MLS is on exactly for the encrypted groups, their epochs satisfy
      1 <= mls epoch <= encryption epoch with a tree stored for the current one, every group has
      an owner, no user is a member and banned, and no invite is overused. */
  lemma {:induction false} AlwaysSound(requests: seq<Request>, k: nat)
    requires k <= |requests|
    ensures SoundDatabase(After(requests, k))
  {
    hide SoundDatabase, Transact;
    if k == 0 {
      EmptySound();
    } else {
      AlwaysSound(requests, k - 1);
      if Transact(After(requests, k - 1), requests[k - 1]).Ok? {
        StepSound(After(requests, k - 1), requests[k - 1]);
      }
    }
  }

  lemma EmptySound()
    ensures SoundDatabase(Database(map[], map[], map[]))
  {
  }

  lemma RunStep(requests: seq<Request>, k: nat)
    requires k < |requests|
    ensures GrowsAll(After(requests, k), After(requests, k + 1), requests[k])
  {
    hide SoundDatabase, Transact, GrowsAll;
    AlwaysSound(requests, k);
    Unchanged(After(requests, k), requests[k]);
    if Transact(After(requests, k), requests[k]).Ok? {
      StepSound(After(requests, k), requests[k]);
    }
  }

  /** Conversations never vanish and their encryption epoch never decreases. */
  lemma {:induction false} EpochsNeverFall(requests: seq<Request>, j: nat, k: nat, id: ConversationId)
    requires j <= k <= |requests| && id in After(requests, j).conversations
    ensures id in After(requests, k).conversations
    ensures After(requests, j).conversations[id].epoch <= After(requests, k).conversations[id].epoch
    decreases k
  {
    hide After;
    if j < k {
      EpochsNeverFall(requests, j, k - 1, id);
      RunStep(requests, k - 1);
    }
  }

  /** No update of a reachable conversation ever stores its tree under the fallback epoch. */
  lemma FallbackNeverTaken(requests: seq<Request>, k: nat, id: ConversationId, next: Encryption)
    requires k <= |requests| && id in After(requests, k).conversations
    ensures var c := After(requests, k).conversations[id];
            && (c.mls ==> TargetEpoch(c) == c.mlsEpoch > 0)
            && (WithEncryption(c, next).mls ==> TargetEpoch(WithEncryption(c, next)) == WithEncryption(c, next).mlsEpoch > 0)
  {
    hide After;
    AlwaysSound(requests, k);
    assert Sound(After(requests, k).conversations[id]);
  }

  /** A banned user stays out of the conversation for as long as nobody lifts the ban. */
  lemma {:induction false} BannedStayOut(requests: seq<Request>, j: nat, k: nat, id: ConversationId, u: UserId)
    requires j <= k <= |requests|
    requires id in After(requests, j).conversations && u in After(requests, j).conversations[id].bans
    requires forall i :: j <= i < k ==> u !in Lifted(requests[i], id)
    ensures id in After(requests, k).conversations && u in After(requests, k).conversations[id].bans
    ensures !IsMember(After(requests, k), id, u)
    decreases k
  {
    hide After;
    AlwaysSound(requests, k);
    if j < k {
      BannedStayOut(requests, j, k - 1, id, u);
      RunStep(requests, k - 1);
    }
    assert Sound(After(requests, k).conversations[id]);
  }

  // ---- membership changes ----

  /** The stored tree of `d` was built for exactly its members, under its own new epoch. */
  predicate FreshTree(d: Conversation, devices: map<DeviceId, Device>) {
    && d.tree.Some? && d.tree.value.epoch == d.mlsEpoch
    && (forall l :: l in d.tree.value.leaves ==>
          l.device in devices && devices[l.device].user == l.user && l.user in d.members)
    && (forall k :: k in devices && devices[k].user in d.members && devices[k].capable && devices[k].published.Some? ==>
          Leaf(devices[k].user, k, devices[k].published.value.agreement) in d.tree.value.leaves)
  }

  /** One step of the member list: an encrypted group gets new epochs and a tree for the new members. */
  predicate Advanced(c: Conversation, d: Conversation, devices: map<DeviceId, Device>) {
    && d == c.(members := d.members, epoch := d.epoch, mlsEpoch := d.mlsEpoch, tree := d.tree)
    && if c.encryption == Encrypted then
         d.epoch == c.epoch + 1 && d.mlsEpoch == c.mlsEpoch + 1 && FreshTree(d, devices)
       else d.epoch == c.epoch && d.mlsEpoch == c.mlsEpoch && d.tree == c.tree
  }

  lemma RekeyedAdvances(c: Conversation, d: Conversation, devices: map<DeviceId, Device>)
    requires EpochsSound(c) && c.kind == Group && d == c.(members := d.members)
    ensures Advanced(c, Rekeyed(d, devices), devices) && Rekeyed(d, devices).members == d.members
  {
  }

  /** In every reachable database `AddMembers` succeeds exactly for a manager of a group who names
      no banned user; if it really adds someone the epochs and the tree advance, otherwise nothing
      changes, and no other conversation is touched. */
  lemma AddMembersAdvances(requests: seq<Request>, k: nat, actor: UserId, id: ConversationId, users: seq<Option<UserId>>)
    requires k <= |requests|
    ensures var db, named := After(requests, k), Named(users);
            var result := AddMembers(db, actor, id, users);
            && (result.Ok? <==> IsMember(db, id, actor) && db.conversations[id].kind == Group
                                && CanManage(db.conversations[id].members[actor]) && named !! db.conversations[id].bans)
            && (result.Ok? ==>
                  var c, d := db.conversations[id], result.value.conversations[id];
                  && result.value == Stored(db, id, d)
                  && d.members.Keys == c.members.Keys + named
                  && (forall u :: u in d.members ==> d.members[u] == if u in c.members then c.members[u] else Member)
                  && if named <= c.members.Keys then d == c else Advanced(c, d, db.devices))
  {
    hide After, Rekeyed, Advanced;
    var db, named := After(requests, k), Named(users);
    AlwaysSound(requests, k);
    if AddMembers(db, actor, id, users).Ok? {
      var c := db.conversations[id];
      assert Sound(c);
      if named <= c.members.Keys {
        assert Stored(db, id, c) == db;
      } else {
        RekeyedAdvances(c, Joined(c, named), db.devices);
      }
    }
  }

  /** The same for `RemoveMember`, which always changes something when it succeeds: afterwards no
      leaf of the tree belongs to the user who left. */
  lemma RemoveMemberAdvances(requests: seq<Request>, k: nat, actor: UserId, id: ConversationId, target: UserId)
    requires k <= |requests| && RemoveMember(After(requests, k), actor, id, target).Ok?
    ensures var db := After(requests, k);
            var next := RemoveMember(db, actor, id, target).value;
            && id in db.conversations && next == Stored(db, id, next.conversations[id])
            && next.conversations[id].members == db.conversations[id].members - {target}
            && target in db.conversations[id].members
            && Advanced(db.conversations[id], next.conversations[id], db.devices)
            && (next.conversations[id].mls ==>
                  forall l :: l in next.conversations[id].tree.value.leaves ==> l.user != target)
  {
    hide After, Rekeyed;
    var db := After(requests, k);
    AlwaysSound(requests, k);
    var c := db.conversations[id];
    assert Sound(c);
    RekeyedAdvances(c, Left(c, target), db.devices);
  }

  /** A changed signing key: every encrypted conversation of its owner moves on by one epoch, and every
      group among them gets a tree that holds the new agreement key. Conversations of others stay. An
      agreement key changed under the same signing key is another matter: `TreeGuarantees.SameSigningKey`. */
  lemma NewKeyReachesGroups(requests: seq<Request>, k: nat, actor: UserId, device: DeviceId, keys: Keys,
                            phone: Option<Phone>, id: ConversationId)
    requires k <= |requests| && PublishBundle(After(requests, k), actor, device, keys, phone).Ok?
    requires var prior := After(requests, k).devices[device].published;
             prior.None? || prior.value.fingerprint != keys.fingerprint
    requires id in After(requests, k).conversations
    ensures var db := After(requests, k);
            var next := PublishBundle(db, actor, device, keys, phone).value;
            var c, d := db.conversations[id], next.conversations[id];
            && (IsMember(db, id, actor) && c.encryption == Encrypted ==> d.epoch == c.epoch + 1)
            && (IsMember(db, id, actor) && c.mls ==>
                  && d.mlsEpoch == c.mlsEpoch + 1 && FreshTree(d, next.devices)
                  && Leaf(actor, device, keys.agreement) in d.tree.value.leaves)
            && (!IsMember(db, id, actor) ==> d == c)
  {
    hide After;
    var db := After(requests, k);
    AlwaysSound(requests, k);
    var c := db.conversations[id];
    assert Sound(c);
    if IsMember(db, id, actor) && c.mls {
      var next := PublishBundle(db, actor, device, keys, phone).value;
      assert Converted(c, actor, phone) == c;
      RekeyedAdvances(c, c, next.devices);
      assert Rekeyed(c, next.devices) == Refreshed(c, actor, next.devices);
      assert next.devices[device].user == actor && next.devices[device].capable;
    }
  }

  // ---- carrier threads ----

  /** The threads a request for a phone thread may return. With a ready user these are all threads
      the two share, groups included. */
  function Candidates(db: Database, actor: UserId, phone: Phone, registered: Option<UserId>): set<ConversationId> {
    if registered.Some? && registered.value != actor && CanEncrypt(db.devices, registered.value) then
      set k | k in db.conversations && db.conversations[k].external.None?
              && actor in db.conversations[k].members && registered.value in db.conversations[k].members
    else
      set k | k in db.conversations && db.conversations[k].kind == PhoneDm
              && db.conversations[k].external == Some(phone) && actor in db.conversations[k].members
  }

  /** Finding or creating a thread twice: without a candidate the thread created is the only one
      afterwards, otherwise nothing changes, so the second time nothing is created and the choice is
      among the same candidates. */
  lemma FoundAgain(db: Database, id: ConversationId, again: ConversationId, actor: UserId, phone: Phone, registered: Option<UserId>)
    requires FindOrCreatePhoneDm(db, id, actor, phone, registered).Ok?
    ensures var next := FindOrCreatePhoneDm(db, id, actor, phone, registered).value;
            var before := Candidates(db, actor, phone, registered);
            && Candidates(next, actor, phone, registered) == (if before == {} then {id} else before)
            && (next == db <==> before != {})
            && FindOrCreatePhoneDm(next, again, actor, phone, registered) == Ok(next)
  {
    var next := FindOrCreatePhoneDm(db, id, actor, phone, registered).value;
    var before, after := Candidates(db, actor, phone, registered), Candidates(next, actor, phone, registered);
    if before == {} {
      assert forall k :: k in db.conversations ==> k !in before;
      assert id in next.conversations;
      assert id in after;
      assert forall k :: k in after && k != id ==> k in before;
      assert after == {id};
    } else {
      var k :| k in before;
    }
  }

  /** Once a user has signed in with a phone number and published keys, no thread of theirs still
      goes to that number by carrier, and they are a member of every thread that did. */
  lemma CarrierThreadsConverted(db: Database, user: UserId, phone: Phone, device: DeviceId, keys: Keys, id: ConversationId)
    requires VerifyPhone(db, user, phone, device, true).Ok? && id in db.conversations
    ensures var joined := VerifyPhone(db, user, phone, device, true).value;
            && PublishBundle(joined, user, device, keys, Some(phone)).Ok?
            && var c, d := db.conversations[id], PublishBundle(joined, user, device, keys, Some(phone)).value.conversations[id];
            && d.external != Some(phone)
            && (c.external == Some(phone) ==>
                  && d.kind == Dm && d.external == None && d.encryption != CarrierPlaintext
                  && d.members.Keys == c.members.Keys + {user})
  {
    hide Refreshed, Joined;
    var joined := VerifyPhone(db, user, phone, device, true).value;
    var c := db.conversations[id];
    JoinedMembers(c, user);
    var b := Converted(joined.conversations[id], user, Some(phone));
    RefreshedKeeps(b, user, PublishBundle(joined, user, device, keys, Some(phone)).value.devices);
  }

  lemma JoinedMembers(c: Conversation, user: UserId)
    ensures Joined(c, {user}) == c.(members := Joined(c, {user}).members)
    ensures Joined(c, {user}).members.Keys == c.members.Keys + {user}
  {
  }

  lemma RefreshedKeeps(c: Conversation, actor: UserId, devices: map<DeviceId, Device>)
    ensures var d := Refreshed(c, actor, devices);
            d == c.(epoch := d.epoch, mlsEpoch := d.mlsEpoch, tree := d.tree)
  {
  }

  // ---- invites ----

  /** Request `i` was a redemption of `code` that brought its sender in. */
  predicate JoinedBy(requests: seq<Request>, i: nat, code: Code)
    requires i < |requests|
  {
    && requests[i].Redeeming? && requests[i].code == code
    && code in After(requests, i).invites
    && var id := After(requests, i).invites[code].conversation;
    !IsMember(After(requests, i), id, requests[i].actor) && IsMember(After(requests, i + 1), id, requests[i].actor)
  }

  function Joins(requests: seq<Request>, k: nat, code: Code): nat
    requires k <= |requests|
  {
    if k == 0 then 0 else Joins(requests, k - 1, code) + if JoinedBy(requests, k - 1, code) then 1 else 0
  }

  /** Over every run the use count of an invite is the number of joins it caused, never more than
      its limit, and an invite that has reached the limit admits nobody, members included. */
  lemma {:induction false} InviteAccounting(requests: seq<Request>, k: nat, code: Code)
    requires k <= |requests|
    ensures code !in After(requests, k).invites ==> Joins(requests, k, code) == 0
    ensures code in After(requests, k).invites ==>
              var i := After(requests, k).invites[code];
              && i.useCount == Joins(requests, k, code) <= i.maxUses
              && (i.useCount == i.maxUses ==>
                    forall actor, now :: RedeemInvite(After(requests, k), actor, code, now) == Err(InviteNotFound))
  {
    hide SoundDatabase, Transact, RedeemInvite, JoinedBy, GrowsAll;
    AlwaysSound(requests, k);
    if k > 0 {
      InviteAccounting(requests, k - 1, code);
      UseCounted(requests, k - 1, code);
    }
    if code in After(requests, k).invites {
      UsedUp(After(requests, k), code);
    }
  }

  lemma UsedUp(db: Database, code: Code)
    requires SoundDatabase(db) && code in db.invites
    ensures var i := db.invites[code];
            && i.useCount <= i.maxUses
            && (i.useCount == i.maxUses ==> forall actor, now :: RedeemInvite(db, actor, code, now) == Err(InviteNotFound))
  {
  }

  lemma UseCounted(requests: seq<Request>, k: nat, code: Code)
    requires k < |requests|
    ensures var db, next := After(requests, k), After(requests, k + 1);
            && (code !in db.invites ==> !JoinedBy(requests, k, code) && (code in next.invites ==> next.invites[code].useCount == 0))
            && (code in db.invites ==>
                  && code in next.invites
                  && next.invites[code].useCount == db.invites[code].useCount + if JoinedBy(requests, k, code) then 1 else 0)
  {
    hide BuildTree, Ready, Owners;
    var db, r := After(requests, k), requests[k];
    if r.Redeeming? && r.code == code && code in db.invites {
      var id := db.invites[code].conversation;
      assert Transact(db, r).Ok? && !IsMember(db, id, r.actor) ==> IsMember(Transact(db, r).value, id, r.actor);
    }
  }
}
