/** Who may do what in a conversation: for every transaction exactly when it succeeds and what it then
    changes, and where the owners of a group come from. */
module MembershipGuarantees {
  import opened Options
  import opened Conversations
  import opened ConversationGuarantees

  // ---- rights ----

  predicate IsGroup(db: Database, id: ConversationId) {
    id in db.conversations && db.conversations[id].kind == Group
  }

  predicate HasRole(db: Database, id: ConversationId, u: UserId, role: Role) {
    IsMember(db, id, u) && db.conversations[id].members[u] == role
  }

  /** The user is an owner or an administrator of the group. */
  predicate Manages(db: Database, id: ConversationId, u: UserId) {
    IsGroup(db, id) && (HasRole(db, id, u, Owner) || HasRole(db, id, u, Admin))
  }

  /** Without the user the group would have no owner. */
  predicate OnlyOwner(db: Database, id: ConversationId, u: UserId) {
    HasRole(db, id, u, Owner) && forall v :: v in db.conversations[id].members && db.conversations[id].members[v] == Owner ==> v == u
  }

  lemma OnlyOwnerCounted(c: Conversation, u: UserId)
    requires u in c.members && c.members[u] == Owner
    ensures |Owners(c)| <= 1 <==> forall v :: v in c.members && c.members[v] == Owner ==> v == u
  {
    var owners := Owners(c);
    assert u in owners;
    if v :| v in c.members && c.members[v] == Owner && v != u {
      assert {u, v} <= owners;
      SubsetCard({u, v}, owners);
    } else {
      assert owners == {u};
    }
  }

  lemma SubsetCard(a: set<UserId>, b: set<UserId>)
    requires a <= b
    ensures |a| <= |b|
  {
    assert b == a + (b - a);
  }

  // ---- the transactions ----

  /** An owner may set the role of any member, unless that would leave no owner; then that one role is
      the new one and nothing else differs. */
  lemma ChangeRoleExactly(db: Database, actor: UserId, id: ConversationId, target: UserId, role: Role)
    ensures var result := UpdateMemberRole(db, actor, id, target, role);
            && (result.Ok? <==>
                  && IsGroup(db, id) && HasRole(db, id, actor, Owner) && IsMember(db, id, target)
                  && !(role != Owner && OnlyOwner(db, id, target)))
            && (result.Ok? ==>
                  var c, d := db.conversations[id], result.value.conversations[id];
                  && result.value == Stored(db, id, d) && d == c.(members := d.members) && d.members.Keys == c.members.Keys
                  && d.members[target] == role && forall u :: u in c.members && u != target ==> d.members[u] == c.members[u])
  {
    hide Owners;
    if HasRole(db, id, target, Owner) {
      OnlyOwnerCounted(db.conversations[id], target);
    }
  }

  /** Members may leave; managers may remove others, administrators only plain members; the only owner
      stays. Then the one member is gone. */
  lemma RemoveExactly(db: Database, actor: UserId, id: ConversationId, target: UserId)
    ensures var result := RemoveMember(db, actor, id, target);
            && (result.Ok? <==>
                  && IsGroup(db, id) && IsMember(db, id, actor) && IsMember(db, id, target) && !OnlyOwner(db, id, target)
                  && (target == actor || HasRole(db, id, actor, Owner)
                      || (HasRole(db, id, actor, Admin) && HasRole(db, id, target, Member))))
            && (result.Ok? ==>
                  var c, d := db.conversations[id], result.value.conversations[id];
                  && result.value == Stored(db, id, d) && d.members == c.members - {target}
                  && d.bans == c.bans && d.kind == c.kind && d.external == c.external && d.encryption == c.encryption)
  {
    hide Owners, BuildTree;
    if HasRole(db, id, target, Owner) {
      OnlyOwnerCounted(db.conversations[id], target);
    }
  }

  /** Managers may ban, administrators only plain members, and never the only owner; then the member is
      out and banned, with epochs and tree as they were. */
  lemma BanExactly(db: Database, actor: UserId, id: ConversationId, target: UserId)
    ensures var result := BanMember(db, actor, id, target);
            && (result.Ok? <==>
                  && IsGroup(db, id) && IsMember(db, id, target) && !OnlyOwner(db, id, target)
                  && (HasRole(db, id, actor, Owner) || (HasRole(db, id, actor, Admin) && HasRole(db, id, target, Member))))
            && (result.Ok? ==>
                  var c, d := db.conversations[id], result.value.conversations[id];
                  && result.value == Stored(db, id, d) && d == c.(members := d.members, bans := d.bans)
                  && d.members == c.members - {target} && d.bans == c.bans + {target})
  {
    hide Owners;
    if HasRole(db, id, target, Owner) {
      OnlyOwnerCounted(db.conversations[id], target);
    }
  }

  lemma UnbanExactly(db: Database, actor: UserId, id: ConversationId, target: UserId)
    ensures var result := UnbanMember(db, actor, id, target);
            && (result.Ok? <==> Manages(db, id, actor))
            && (result.Ok? ==>
                  var c, d := db.conversations[id], result.value.conversations[id];
                  && result.value == Stored(db, id, d) && d == c.(bans := d.bans)
                  && target !in d.bans && forall u :: u != target ==> (u in d.bans <==> u in c.bans))
  {
  }

  /** Managers may invite, under a code not in use. Without a positive number of uses the invite has one,
      without a positive lifetime it lives for seven days. */
  lemma InviteExactly(db: Database, actor: UserId, id: ConversationId, code: Code, maxUses: int, ttl: int, now: int)
    ensures var result := CreateInvite(db, actor, id, code, maxUses, ttl, now);
            && (result.Ok? <==> Manages(db, id, actor) && code !in db.invites)
            && (result.Ok? ==>
                  && result.value == db.(invites := result.value.invites)
                  && result.value.invites.Keys == db.invites.Keys + {code}
                  && (forall k :: k in db.invites ==> result.value.invites[k] == db.invites[k])
                  && var i := result.value.invites[code];
                  && i.conversation == id && i.useCount == 0 && !i.revoked
                  && i.maxUses == (if maxUses > 0 then maxUses else 1)
                  && i.expiresAt == now + (if ttl > 0 then ttl else 604800))
  {
  }

  /** An invite works until it is revoked, expires or is used up. It lets anyone in who is neither a
      member nor banned, as a plain member, and counts the use; to a member it does nothing. */
  lemma RedeemExactly(db: Database, actor: UserId, code: Code, now: int)
    ensures var result := RedeemInvite(db, actor, code, now);
            && (result.Ok? <==>
                  && code in db.invites
                  && var i := db.invites[code];
                  && !i.revoked && now < i.expiresAt && (i.maxUses > 0 ==> i.useCount < i.maxUses)
                  && (IsMember(db, i.conversation, actor)
                      || (IsGroup(db, i.conversation) && actor !in db.conversations[i.conversation].bans)))
            && (result.Ok? && IsMember(db, db.invites[code].conversation, actor) ==> result.value == db)
            && (result.Ok? && !IsMember(db, db.invites[code].conversation, actor) ==>
                  var i, n := db.invites[code], result.value;
                  var c, d := db.conversations[i.conversation], n.conversations[i.conversation];
                  && n == db.(conversations := db.conversations[i.conversation := d], invites := db.invites[code := n.invites[code]])
                  && d == c.(members := c.members[actor := Member])
                  && n.invites[code] == i.(useCount := i.useCount + 1, revoked := n.invites[code].revoked)
                  && (n.invites[code].revoked <==> i.maxUses > 0 && i.useCount + 1 >= i.maxUses))
  {
    if code in db.invites && db.invites[code].conversation in db.conversations {
      var c := db.conversations[db.invites[code].conversation];
      assert actor !in c.members ==> Joined(c, {actor}).members == c.members[actor := Member];
    }
  }

  /** Anyone may create a conversation under a new id, but no phone thread. Groups are encrypted at epoch
      one and owned by whoever created them; nobody else has a role beyond plain membership. */
  lemma CreateExactly(db: Database, id: ConversationId, actor: UserId, kind: Kind, participants: seq<Option<UserId>>,
                      requested: Encryption)
    ensures var result := CreateConversation(db, id, actor, kind, participants, requested);
            && (result.Ok? <==> kind != PhoneDm && id !in db.conversations)
            && (result.Ok? ==>
                  var d := result.value.conversations[id];
                  && result.value == Stored(db, id, d)
                  && d.kind == kind && d.bans == {} && d.external.None?
                  && (forall u :: u in d.members <==> u == actor || Some(u) in participants)
                  && (forall u :: u in d.members ==> d.members[u] == if kind == Group && u == actor then Owner else Member)
                  && d.encryption == (if kind == Group then Encrypted else requested)
                  && d.epoch == d.mlsEpoch == (if d.encryption == Encrypted then 1 else 0)
                  && (d.mls <==> kind == Group) && (d.tree.Some? <==> d.mls))
  {
    hide BuildTree;
    assert forall u :: u in Named(participants) <==> Some(u) in participants by {
      NamedExactly(participants);
    }
  }

  lemma NamedExactly(participants: seq<Option<UserId>>)
    ensures forall u :: u in Named(participants) <==> Some(u) in participants
  {
    forall u | Some(u) in participants ensures u in Named(participants) {
      var i :| 0 <= i < |participants| && participants[i] == Some(u);
    }
  }

  /** Managers may add anyone to a group who is not banned; those who are in it keep their roles. */
  lemma AddExactly(db: Database, actor: UserId, id: ConversationId, users: seq<Option<UserId>>)
    ensures var result := AddMembers(db, actor, id, users);
            && (result.Ok? <==> Manages(db, id, actor) && forall u :: Some(u) in users ==> u !in db.conversations[id].bans)
            && (result.Ok? ==>
                  var c, d := db.conversations[id], result.value.conversations[id];
                  && result.value == Stored(db, id, d)
                  && (forall u :: u in d.members <==> u in c.members || Some(u) in users)
                  && (forall u :: u in d.members ==> d.members[u] == if u in c.members then c.members[u] else Member)
                  && d.bans == c.bans && d.kind == c.kind && d.external == c.external && d.encryption == c.encryption)
  {
    hide BuildTree, Named;
    NamedExactly(users);
    if id in db.conversations && Named(users) <= db.conversations[id].members.Keys {
      assert Stored(db, id, db.conversations[id]) == db;
    }
  }

  /** Any member may update a conversation, a group only its managers, and nobody may turn encryption on
      unless every member has a device that can take part. */
  lemma UpdateExactly(db: Database, actor: UserId, id: ConversationId, requested: Option<Encryption>)
    requires SoundDatabase(db)
    ensures var result := UpdateMetadata(db, actor, id, requested);
            && (result.Ok? <==>
                  && IsMember(db, id, actor) && (IsGroup(db, id) ==> Manages(db, id, actor))
                  && (requested == Some(Encrypted) && db.conversations[id].kind != PhoneDm ==>
                        forall u :: u in db.conversations[id].members ==> CanEncrypt(db.devices, u)))
            && (result.Ok? ==>
                  var c, d := db.conversations[id], result.value.conversations[id];
                  var next := if requested.None? then c.encryption else if c.kind == PhoneDm then CarrierPlaintext else requested.value;
                  var on := next == Encrypted && c.encryption != Encrypted;
                  && result.value == Stored(db, id, d)
                  && d == c.(encryption := next, epoch := d.epoch, mls := d.mls, mlsEpoch := d.mlsEpoch, tree := d.tree)
                  && d.epoch == (if on then c.epoch + 1 else c.epoch)
                  && (d.mls <==> c.kind == Group && next == Encrypted)
                  && d.mlsEpoch == (if c.kind != Group then c.mlsEpoch else if next != Encrypted then 0
                                    else if on then c.mlsEpoch + 1 else c.mlsEpoch)
                  && (!d.mls ==> d.tree == c.tree))
  {
    hide BuildTree, CanEncrypt;
    if id in db.conversations {
      assert Sound(db.conversations[id]);
    }
  }

  /** One conversation when keys are published: a thread that went to the publisher's own number becomes a
      direct one, and a new signing key moves an encrypted conversation on. */
  predicate PublishedIn(c: Conversation, d: Conversation, actor: UserId, phone: Option<Phone>, newKey: bool) {
    var converts := phone.Some? && c.external == phone && actor in c.members;
    var moves := newKey && d.encryption == Encrypted && actor in c.members;
    && d.members == c.members && d.bans == c.bans && d.mls == c.mls
    && d.kind == (if converts then Dm else c.kind) && d.external == (if converts then None else c.external)
    && d.encryption == (if converts && c.encryption == CarrierPlaintext then Plaintext else c.encryption)
    && d.epoch == (if moves then c.epoch + 1 else c.epoch)
    && d.mlsEpoch == (if moves && d.kind == Group && c.mls then c.mlsEpoch + 1 else c.mlsEpoch)
    && (!(moves && d.kind == Group && c.mls) ==> d.tree == c.tree)
  }

  /** Users publish the keys of their own capable devices. */
  lemma PublishExactly(db: Database, actor: UserId, device: DeviceId, keys: Keys, phone: Option<Phone>)
    ensures var result := PublishBundle(db, actor, device, keys, phone);
            && (result.Ok? <==> device in db.devices && db.devices[device].user == actor && db.devices[device].capable)
            && (result.Ok? ==>
                  var n, prior := result.value, db.devices[device].published;
                  && n.devices == db.devices[device := Device(actor, true, Some(keys))] && n.invites == db.invites
                  && n.conversations.Keys == db.conversations.Keys
                  && forall id :: id in db.conversations ==>
                       PublishedIn(db.conversations[id], n.conversations[id], actor, phone,
                                   prior.None? || prior.value.fingerprint != keys.fingerprint))
  {
    hide Converted, Refreshed, PublishedIn;
    if PublishBundle(db, actor, device, keys, phone).Ok? {
      var n := PublishBundle(db, actor, device, keys, phone).value;
      forall id | id in db.conversations
        ensures PublishedIn(db.conversations[id], Converted(db.conversations[id], actor, phone), actor, phone, false)
        ensures PublishedIn(db.conversations[id], Refreshed(Converted(db.conversations[id], actor, phone), actor, n.devices),
                            actor, phone, true)
      {
        PublishedOne(db.conversations[id], actor, phone, n.devices);
      }
    }
  }

  lemma PublishedOne(c: Conversation, actor: UserId, phone: Option<Phone>, devices: map<DeviceId, Device>)
    ensures PublishedIn(c, Converted(c, actor, phone), actor, phone, false)
    ensures PublishedIn(c, Refreshed(Converted(c, actor, phone), actor, devices), actor, phone, true)
  {
    hide BuildTree;
  }

  /** Signing in adds the device and makes the user a member of every thread with that contact. */
  lemma VerifyExactly(db: Database, user: UserId, phone: Phone, device: DeviceId, capable: bool)
    ensures var result := VerifyPhone(db, user, phone, device, capable);
            && (result.Ok? <==> device !in db.devices)
            && (result.Ok? ==>
                  var n := result.value;
                  && n.devices == db.devices[device := Device(user, capable, None)] && n.invites == db.invites
                  && n.conversations.Keys == db.conversations.Keys
                  && forall id :: id in db.conversations ==>
                       var c := db.conversations[id];
                       n.conversations[id] == if c.external == Some(phone) && user !in c.members
                                              then c.(members := c.members[user := Member]) else c)
  {
    forall id | id in db.conversations && db.conversations[id].external == Some(phone)
      ensures Joined(db.conversations[id], {user})
           == if user in db.conversations[id].members then db.conversations[id]
              else db.conversations[id].(members := db.conversations[id].members[user := Member])
    {
      var c := db.conversations[id];
      if user in c.members {
        assert Joined(c, {user}).members == c.members;
      } else {
        assert Joined(c, {user}).members == c.members[user := Member];
      }
    }
  }

  /** A phone thread is found or created: a plain direct conversation of the two when the number belongs to
      someone else who can encrypt, otherwise a carrier thread of the user alone. */
  lemma PhoneDmExactly(db: Database, id: ConversationId, actor: UserId, phone: Phone, registered: Option<UserId>)
    ensures var result := FindOrCreatePhoneDm(db, id, actor, phone, registered);
            var found := Candidates(db, actor, phone, registered) != {};
            && (result.Ok? <==> phone != "" && (found || id !in db.conversations))
            && (result.Ok? && found ==> result.value == db)
            && (result.Ok? && !found ==>
                  && id in result.value.conversations
                  && var d := result.value.conversations[id];
                  var direct := registered.Some? && registered.value != actor && CanEncrypt(db.devices, registered.value);
                  && result.value == Stored(db, id, d)
                  && d.epoch == d.mlsEpoch == 0 && !d.mls && d.tree.None? && d.bans == {}
                  && (forall u :: u in d.members <==> u == actor || (direct && u == registered.value))
                  && (forall u :: u in d.members ==> d.members[u] == Member)
                  && (if direct then d.kind == Dm && d.encryption == Plaintext && d.external.None?
                      else d.kind == PhoneDm && d.encryption == CarrierPlaintext && d.external == Some(phone)))
  {
    hide CanEncrypt;
    var before := Candidates(db, actor, phone, registered);
    if before == {} {
      assert forall k :: k in db.conversations ==> k !in before;
      NotFound(db, id, actor, phone, registered);
    } else {
      var k :| k in before;
    }
  }

  lemma NotFound(db: Database, id: ConversationId, actor: UserId, phone: Phone, registered: Option<UserId>)
    requires Candidates(db, actor, phone, registered) == {}
    ensures FindOrCreatePhoneDm(db, id, actor, phone, registered).Ok? <==> phone != "" && id !in db.conversations
    ensures FindOrCreatePhoneDm(db, id, actor, phone, registered).Ok? ==>
              id in FindOrCreatePhoneDm(db, id, actor, phone, registered).value.conversations
  {
    hide CanEncrypt;
    assert forall k :: k in db.conversations ==> k !in Candidates(db, actor, phone, registered);
  }

  /** To someone who is not a member every conversation looks like one that does not exist. */
  lemma OutsidersSeeNothing(db: Database, actor: UserId, id: ConversationId, target: UserId, role: Role,
                            users: seq<Option<UserId>>, requested: Option<Encryption>, code: Code, maxUses: int, ttl: int, now: int)
    requires !IsMember(db, id, actor)
    ensures UpdateMetadata(db, actor, id, requested) == AddMembers(db, actor, id, users)
         == UpdateMemberRole(db, actor, id, target, role) == RemoveMember(db, actor, id, target)
         == BanMember(db, actor, id, target) == UnbanMember(db, actor, id, target)
         == CreateInvite(db, actor, id, code, maxUses, ttl, now) == Err(ConversationNotFound)
  {
  }

  /** Why a member is refused: the first of these reasons that applies. */
  lemma MembersRefused(db: Database, actor: UserId, id: ConversationId, target: UserId, role: Role, users: seq<Option<UserId>>)
    requires IsMember(db, id, actor)
    ensures !IsGroup(db, id) ==>
              && AddMembers(db, actor, id, users) == UpdateMemberRole(db, actor, id, target, role)
                 == RemoveMember(db, actor, id, target) == Err(NotSupported)
              && BanMember(db, actor, id, target) == UnbanMember(db, actor, id, target) == Err(Forbidden)
    ensures IsGroup(db, id) && !Manages(db, id, actor) ==>
              && AddMembers(db, actor, id, users) == UpdateMemberRole(db, actor, id, target, role) == Err(Forbidden)
              && BanMember(db, actor, id, target) == UnbanMember(db, actor, id, target) == Err(Forbidden)
              && (target != actor ==>
                    RemoveMember(db, actor, id, target) == Err(if IsMember(db, id, target) then Forbidden else ConversationNotFound))
    ensures Manages(db, id, actor) && AddMembers(db, actor, id, users).Err? ==> AddMembers(db, actor, id, users) == Err(UserBanned)
    ensures Manages(db, id, actor) && !IsMember(db, id, target) ==>
              RemoveMember(db, actor, id, target) == BanMember(db, actor, id, target) == Err(ConversationNotFound)
    ensures HasRole(db, id, actor, Owner) && IsGroup(db, id) ==>
              && (!IsMember(db, id, target) ==> UpdateMemberRole(db, actor, id, target, role) == Err(ConversationNotFound))
              && (OnlyOwner(db, id, target) ==>
                    && RemoveMember(db, actor, id, target) == BanMember(db, actor, id, target) == Err(LastOwnerRequired)
                    && (role != Owner ==> UpdateMemberRole(db, actor, id, target, role) == Err(LastOwnerRequired)))
    ensures HasRole(db, id, actor, Admin) && IsGroup(db, id) && target != actor && IsMember(db, id, target)
            && !HasRole(db, id, target, Member) ==>
              RemoveMember(db, actor, id, target) == BanMember(db, actor, id, target) == Err(Forbidden)
  {
    hide Rekeyed, Owners, Joined, Named;
    if HasRole(db, id, target, Owner) {
      OnlyOwnerCounted(db.conversations[id], target);
    }
  }

  /** Only an encrypted group has epochs to raise; a tree without an MLS epoch is stored under the other one. */
  lemma EpochColumns(c: Conversation)
    ensures c.kind == Group && c.encryption == Encrypted ==>
              Bumped(c) == c.(epoch := c.epoch + 1, mlsEpoch := Bumped(c).mlsEpoch)
              && Bumped(c).mlsEpoch == c.mlsEpoch + if c.mls then 1 else 0
    ensures c.kind != Group || c.encryption != Encrypted ==> Bumped(c) == c
    ensures c.mlsEpoch == 0 ==> TargetEpoch(c) == c.epoch
    ensures c.mlsEpoch > 0 ==> TargetEpoch(c) == c.mlsEpoch
  {
  }

  // ---- where owners come from ----

  /** Request `j` makes the user an owner: by creating the group, or given the role by an owner. */
  predicate MakesOwner(requests: seq<Request>, j: nat, id: ConversationId, u: UserId)
    requires j < |requests|
  {
    match requests[j]
    case Creating(at, actor, kind, _, _) => at == id && actor == u && kind == Group && id !in After(requests, j).conversations
    case ChangingRole(actor, at, target, role) => at == id && target == u && role == Owner && HasRole(After(requests, j), id, actor, Owner)
    case _ => false
  }

  lemma OwnersStep(db: Database, r: Request, id: ConversationId, u: UserId)
    requires Transact(db, r).Ok? && HasRole(Transact(db, r).value, id, u, Owner) && SoundDatabase(db)
    ensures || HasRole(db, id, u, Owner)
            || (r.Creating? && r.id == id && r.actor == u && r.kind == Group && id !in db.conversations)
            || (r.ChangingRole? && r.id == id && r.target == u && r.role == Owner && HasRole(db, id, r.actor, Owner))
  {
    hide CreateConversation, FindOrCreatePhoneDm, UpdateMetadata, AddMembers, UpdateMemberRole,
         RemoveMember, BanMember, UnbanMember, RedeemInvite, PublishBundle, VerifyPhone, CreateInvite, SoundDatabase;
    match r
    case Creating(at, actor, kind, participants, requested) => CreateExactly(db, at, actor, kind, participants, requested);
    case OpeningPhoneDm(at, actor, phone, registered) => PhoneDmExactly(db, at, actor, phone, registered);
    case Updating(actor, at, next) => UpdateExactly(db, actor, at, next);
    case Adding(actor, at, users) => AddExactly(db, actor, at, users);
    case ChangingRole(actor, at, target, role) => ChangeRoleExactly(db, actor, at, target, role);
    case Removing(actor, at, target) => RemoveExactly(db, actor, at, target);
    case Banning(actor, at, target) => BanExactly(db, actor, at, target);
    case Unbanning(actor, at, target) => UnbanExactly(db, actor, at, target);
    case Inviting(actor, at, code, maxUses, ttl, now) => InviteExactly(db, actor, at, code, maxUses, ttl, now);
    case Redeeming(actor, code, now) => RedeemExactly(db, actor, code, now);
    case Publishing(actor, device, keys, own) => PublishExactly(db, actor, device, keys, own);
    case Verifying(user, phone, device, capable) => VerifyExactly(db, user, phone, device, capable);
  }

  /** Over every run an owner of a conversation created it as a group or was made an owner by an owner. */
  lemma {:induction false} OwnersMadeByOwners(requests: seq<Request>, k: nat, id: ConversationId, u: UserId)
    requires k <= |requests| && HasRole(After(requests, k), id, u, Owner)
    ensures exists j :: 0 <= j < k && Transact(After(requests, j), requests[j]).Ok? && MakesOwner(requests, j, id, u)
  {
    hide Transact, HasRole, SoundDatabase;
    if k == 0 {
      NobodyYet(requests, id, u);
    } else {
      var db, r := After(requests, k - 1), requests[k - 1];
      AlwaysSound(requests, k - 1);
      if Transact(db, r).Ok? {
        OwnersStep(db, r, id, u);
        if !HasRole(db, id, u, Owner) {
          assert MakesOwner(requests, k - 1, id, u);
        } else {
          OwnersMadeByOwners(requests, k - 1, id, u);
        }
      } else {
        OwnersMadeByOwners(requests, k - 1, id, u);
      }
    }
  }

  lemma NobodyYet(requests: seq<Request>, id: ConversationId, u: UserId)
    ensures !HasRole(After(requests, 0), id, u, Owner)
  {
  }
}
