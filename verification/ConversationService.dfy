/** The transactions as the service runs them, statement by statement, with a rollback on every
    refusal. Each method is proved against the function of `Conversations` for its transaction. */
module ConversationService {
  import opened Options
  import opened Conversations
  import Tx = Conversations

  /** A refused transaction leaves the database as it was. */
  predicate Outcome(before: Database, result: Result<Database>, refusal: Option<Refusal>, after: Database) {
    match result
    case Ok(db) => refusal == None && after == db
    case Err(e) => refusal == Some(e) && after == before
  }

  function SetOf(s: seq<UserId>): set<UserId> {
    set u | u in s
  }

  lemma SetOfNext(s: seq<UserId>, i: nat)
    requires i < |s|
    ensures SetOf(s[..i + 1]) == SetOf(s[..i]) + {s[i]}
  {
  }

  lemma JoinedNext(c: Conversation, users: set<UserId>, u: UserId)
    ensures Joined(Joined(c, users), {u}) == Joined(c, users + {u})
    ensures Joined(c, {}) == c
    ensures users <= c.members.Keys ==> Joined(c, users) == c
  {
  }

  /** Every user a request names, once, in order of first mention. */
  method DedupeUsers(items: seq<Option<UserId>>) returns (out: seq<UserId>)
    ensures forall i, j :: 0 <= i < j < |out| ==> out[i] != out[j]
    ensures SetOf(out) == Named(items)
  {
    out := [];
    for i := 0 to |items|
      invariant forall j, k :: 0 <= j < k < |out| ==> out[j] != out[k]
      invariant forall u :: u in out <==> exists j :: 0 <= j < i && items[j] == Some(u)
    {
      if items[i].Some? && items[i].value !in out {
        out := out + [items[i].value];
      }
    }
    assert forall u :: u in Named(items) <==> exists j :: 0 <= j < |items| && items[j] == Some(u);
  }

  /** One member row after the other, the creator first. */
  method InitialRows(actor: UserId, kind: Kind, participants: seq<Option<UserId>>) returns (members: map<UserId, Role>)
    ensures members == InitialMembers(actor, kind, participants)
  {
    var items := [Some(actor)] + participants;
    var all := DedupeUsers(items);
    assert Named(items) == {actor} + Named(participants) by {
      assert forall i :: 0 <= i < |participants| ==> items[i + 1] == participants[i];
      assert items[0] == Some(actor);
    }
    members := map[];
    for i := 0 to |all|
      invariant members.Keys == SetOf(all[..i])
      invariant forall u :: u in members ==> members[u] == if u == actor && kind == Group then Owner else Member
    {
      SetOfNext(all, i);
      members := members[all[i] := if all[i] == actor && kind == Group then Owner else Member];
    }
    assert all[..|all|] == all;
  }

  /** The columns an update of the encryption state writes. */
  method EncryptionColumns(c: Conversation, next: Encryption) returns (updated: Conversation)
    ensures updated == WithEncryption(c, next)
  {
    var bumpEpoch := next == Encrypted && c.encryption != Encrypted;
    var disableMls := next != Encrypted && c.kind == Group;
    updated := c.(encryption := next);
    if bumpEpoch {
      updated := updated.(epoch := c.epoch + 1);
    }
    if disableMls {
      updated := updated.(mls := false, mlsEpoch := 0);
    } else {
      if next == Encrypted && c.kind == Group {
        updated := updated.(mls := true);
      }
      if bumpEpoch && c.kind == Group {
        updated := updated.(mlsEpoch := c.mlsEpoch + 1);
      }
    }
  }

  /** The new epochs of a conversation of a user whose device key has changed. */
  function NextEpochs(c: Conversation, actor: UserId): Conversation {
    if c.encryption == Encrypted && actor in c.members then
      c.(epoch := c.epoch + 1, mlsEpoch := if c.kind == Group && c.mls then c.mlsEpoch + 1 else c.mlsEpoch)
    else c
  }

  predicate HasTree(c: Conversation, actor: UserId) {
    actor in c.members && c.kind == Group && c.encryption == Encrypted && c.mls
  }

  function Rebuilt(c: Conversation, actor: UserId, devices: map<DeviceId, Tx.Device>): Conversation {
    if HasTree(c, actor) then c.(tree := Some(BuildTree(c, devices, c.mlsEpoch))) else c
  }

  lemma PublishedRows(before: Database, actor: UserId, device: DeviceId, keys: Keys, phone: Option<Phone>, after: Database)
    requires device in before.devices && before.devices[device].user == actor && before.devices[device].capable
    requires after.invites == before.invites
    requires after.devices == before.devices[device := before.devices[device].(published := Some(keys))]
    requires after.conversations.Keys == before.conversations.Keys
    requires var prior := before.devices[device].published;
             var changed := prior.None? || prior.value.fingerprint != keys.fingerprint;
             forall id :: id in before.conversations ==>
               var c := if phone.Some? then Converted(before.conversations[id], actor, phone) else before.conversations[id];
               after.conversations[id] == if changed then Rebuilt(NextEpochs(c, actor), actor, after.devices) else c
    ensures Tx.PublishBundle(before, actor, device, keys, phone) == Ok(after)
  {
    hide BuildTree;
    var result := Tx.PublishBundle(before, actor, device, keys, phone).value;
    forall id | id in before.conversations ensures after.conversations[id] == result.conversations[id] {
      RebuiltIsRefreshed(Converted(before.conversations[id], actor, phone), actor, after.devices);
    }
    assert after.conversations == result.conversations;
  }

  lemma RebuiltIsRefreshed(c: Conversation, actor: UserId, devices: map<DeviceId, Tx.Device>)
    ensures Rebuilt(NextEpochs(c, actor), actor, devices) == Refreshed(c, actor, devices)
  {
  }

  class Service {
    var conversations: map<ConversationId, Conversation>
    var invites: map<Code, Invite>
    var devices: map<DeviceId, Tx.Device>

    function Contents(): Database
      reads this
    {
      Database(conversations, invites, devices)
    }

    constructor ()
      ensures Contents() == Database(map[], map[], map[])
    {
      conversations, invites, devices := map[], map[], map[];
    }

    // ---- single statements ----

    method InsertMember(id: ConversationId, u: UserId) returns (inserted: bool)
      requires id in conversations
      modifies `conversations
      ensures inserted <==> u !in old(conversations)[id].members
      ensures conversations == old(conversations)[id := Joined(old(conversations)[id], {u})]
    {
      inserted := u !in conversations[id].members;
      if inserted {
        conversations := conversations[id := conversations[id].(members := conversations[id].members[u := Member])];
      }
      assert conversations[id].members == Joined(old(conversations)[id], {u}).members;
    }

    method BumpEncryptedEpoch(id: ConversationId)
      requires id in conversations
      modifies `conversations
      ensures conversations == old(conversations)[id := Bumped(old(conversations)[id])]
    {
      var c := conversations[id];
      if c.kind == Group && c.encryption == Encrypted {
        c := c.(epoch := c.epoch + 1);
        if c.mls {
          c := c.(mlsEpoch := c.mlsEpoch + 1);
        }
        conversations := conversations[id := c];
      }
    }

    method SyncTree(id: ConversationId, epoch: nat)
      requires id in conversations
      modifies `conversations
      ensures conversations == old(conversations)[id := Synced(old(conversations)[id], devices, epoch)]
    {
      var tree := BuildTree(conversations[id], devices, epoch);
      conversations := conversations[id := conversations[id].(tree := Some(tree))];
      conversations := conversations[id := conversations[id].(mls := true, mlsEpoch := epoch)];
    }

    method Rekey(id: ConversationId)
      requires id in conversations
      modifies `conversations
      ensures conversations == old(conversations)[id := Rekeyed(old(conversations)[id], devices)]
    {
      BumpEncryptedEpoch(id);
      if conversations[id].mls {
        SyncTree(id, conversations[id].mlsEpoch);
      }
    }

    // ---- transactions ----

    method CreateConversation(id: ConversationId, actor: UserId, kind: Kind, participants: seq<Option<UserId>>,
                              requested: Encryption) returns (refusal: Option<Refusal>)
      modifies `conversations
      ensures Outcome(old(Contents()), Tx.CreateConversation(old(Contents()), id, actor, kind, participants, requested),
                      refusal, Contents())
    {
      if kind == PhoneDm {
        return Some(InvalidType);
      }
      if id in conversations {
        return Some(Duplicate);
      }
      var encryption := InitialEncryption(kind, requested);
      var epoch := if encryption == Encrypted then 1 else 0;
      var members := InitialRows(actor, kind, participants);
      var row := Conversation(kind, encryption, epoch, kind == Group, epoch, None, members, {}, None);
      conversations := conversations[id := row];
      if row.mls {
        SyncTree(id, epoch);
      }
      return None;
    }

    method UpdateMetadata(actor: UserId, id: ConversationId, requested: Option<Encryption>) returns (refusal: Option<Refusal>)
      modifies `conversations
      ensures Outcome(old(Contents()), Tx.UpdateMetadata(old(Contents()), actor, id, requested), refusal, Contents())
    {
      hide Ready, Synced, WithEncryption;
      if !IsMember(Contents(), id, actor) {
        return Some(ConversationNotFound);
      }
      var c := conversations[id];
      if c.kind == Group && !CanManage(c.members[actor]) {
        return Some(Forbidden);
      }
      var updated := c;
      if requested.Some? {
        var next := Normalized(c.kind, requested.value);
        if next == Encrypted && !Ready(c, devices) {
          return Some(NotReady);
        }
        updated := EncryptionColumns(c, next);
      }
      conversations := conversations[id := updated];
      if updated.mls {
        var target := updated.mlsEpoch;
        if target <= 0 {
          target := updated.epoch;
        }
        SyncTree(id, target);
      }
      return None;
    }

    method AddMembers(actor: UserId, id: ConversationId, users: seq<Option<UserId>>) returns (refusal: Option<Refusal>)
      modifies `conversations
      ensures Outcome(old(Contents()), Tx.AddMembers(old(Contents()), actor, id, users), refusal, Contents())
    {
      if !IsMember(Contents(), id, actor) {
        return Some(ConversationNotFound);
      }
      var before, c := conversations, conversations[id];
      if c.kind != Group {
        return Some(NotSupported);
      }
      if !CanManage(c.members[actor]) {
        return Some(Forbidden);
      }
      var named := DedupeUsers(users);
      var banned, changed := InsertUnbanned(id, named);
      if banned {
        conversations := before;
        return Some(UserBanned);
      }
      if changed {
        Rekey(id);
      } else {
        JoinedNext(c, Named(users), actor);
      }
      return None;
    }

    /** Stops at the first banned user; the caller then rolls back. */
    method InsertUnbanned(id: ConversationId, users: seq<UserId>) returns (banned: bool, changed: bool)
      requires id in conversations
      modifies `conversations
      ensures banned <==> !(SetOf(users) !! old(conversations)[id].bans)
      ensures !banned ==> conversations == old(conversations)[id := Joined(old(conversations)[id], SetOf(users))]
      ensures !banned ==> (changed <==> !(SetOf(users) <= old(conversations)[id].members.Keys))
    {
      ghost var before, c := conversations, conversations[id];
      banned, changed := false, false;
      JoinedNext(c, {}, 0);
      assert SetOf(users[..0]) == {};
      assert before[id := c] == before;
      for i := 0 to |users|
        invariant conversations == before[id := Joined(c, SetOf(users[..i]))]
        invariant SetOf(users[..i]) !! c.bans
        invariant !banned && (changed <==> !(SetOf(users[..i]) <= c.members.Keys))
      {
        SetOfNext(users, i);
        JoinedNext(c, SetOf(users[..i]), users[i]);
        if users[i] in conversations[id].bans {
          banned := true;
          assert users[i] in SetOf(users) && users[i] in c.bans;
          return;
        }
        var inserted := InsertMember(id, users[i]);
        changed := changed || inserted;
      }
      assert users[..|users|] == users;
    }

    method UpdateMemberRole(actor: UserId, id: ConversationId, target: UserId, role: Role) returns (refusal: Option<Refusal>)
      modifies `conversations
      ensures Outcome(old(Contents()), Tx.UpdateMemberRole(old(Contents()), actor, id, target, role), refusal, Contents())
    {
      if !IsMember(Contents(), id, actor) {
        return Some(ConversationNotFound);
      }
      var c := conversations[id];
      if c.kind != Group {
        return Some(NotSupported);
      }
      if c.members[actor] != Owner {
        return Some(Forbidden);
      }
      if target !in c.members {
        return Some(ConversationNotFound);
      }
      if c.members[target] == role {
        assert c.members[target := role] == c.members;
        return None;
      }
      if c.members[target] == Owner && role != Owner {
        var owners := Owners(c);
        if |owners| <= 1 {
          return Some(LastOwnerRequired);
        }
      }
      conversations := conversations[id := c.(members := c.members[target := role])];
      return None;
    }

    method RemoveMember(actor: UserId, id: ConversationId, target: UserId) returns (refusal: Option<Refusal>)
      modifies `conversations
      ensures Outcome(old(Contents()), Tx.RemoveMember(old(Contents()), actor, id, target), refusal, Contents())
    {
      if !IsMember(Contents(), id, actor) {
        return Some(ConversationNotFound);
      }
      var c := conversations[id];
      if c.kind != Group {
        return Some(NotSupported);
      }
      var role := c.members[actor];
      var targetRole := role;
      if target != actor {
        if target !in c.members {
          return Some(ConversationNotFound);
        }
        targetRole := c.members[target];
        if !CanManage(role) {
          return Some(Forbidden);
        }
        if role == Admin && targetRole != Member {
          return Some(Forbidden);
        }
      }
      if targetRole == Owner {
        var owners := Owners(c);
        if |owners| <= 1 {
          return Some(LastOwnerRequired);
        }
      }
      conversations := conversations[id := Left(c, target)];
      Rekey(id);
      return None;
    }

    method BanMember(actor: UserId, id: ConversationId, target: UserId) returns (refusal: Option<Refusal>)
      modifies `conversations
      ensures Outcome(old(Contents()), Tx.BanMember(old(Contents()), actor, id, target), refusal, Contents())
    {
      if !IsMember(Contents(), id, actor) {
        return Some(ConversationNotFound);
      }
      var c := conversations[id];
      var role := c.members[actor];
      if c.kind != Group || !CanManage(role) {
        return Some(Forbidden);
      }
      if target !in c.members {
        return Some(ConversationNotFound);
      }
      var targetRole := c.members[target];
      if role == Admin && targetRole != Member {
        return Some(Forbidden);
      }
      if targetRole == Owner {
        var owners := Owners(c);
        if |owners| <= 1 {
          return Some(LastOwnerRequired);
        }
      }
      c := c.(bans := c.bans + {target});
      conversations := conversations[id := c];
      conversations := conversations[id := Left(c, target)];
      return None;
    }

    method UnbanMember(actor: UserId, id: ConversationId, target: UserId) returns (refusal: Option<Refusal>)
      modifies `conversations
      ensures Outcome(old(Contents()), Tx.UnbanMember(old(Contents()), actor, id, target), refusal, Contents())
    {
      if !IsMember(Contents(), id, actor) {
        return Some(ConversationNotFound);
      }
      var c := conversations[id];
      if c.kind != Group || !CanManage(c.members[actor]) {
        return Some(Forbidden);
      }
      conversations := conversations[id := c.(bans := c.bans - {target})];
      return None;
    }

    method CreateInvite(actor: UserId, id: ConversationId, code: Code, maxUses: int, ttl: int, now: int)
        returns (refusal: Option<Refusal>)
      modifies `invites
      ensures Outcome(old(Contents()), Tx.CreateInvite(old(Contents()), actor, id, code, maxUses, ttl, now), refusal, Contents())
    {
      if !IsMember(Contents(), id, actor) {
        return Some(ConversationNotFound);
      }
      var c := conversations[id];
      if c.kind != Group || !CanManage(c.members[actor]) {
        return Some(Forbidden);
      }
      var uses, seconds := maxUses, ttl;
      if uses <= 0 {
        uses := 1;
      }
      if seconds <= 0 {
        seconds := DEFAULT_INVITE_TTL;
      }
      if code in invites {
        return Some(Duplicate);
      }
      invites := invites[code := Invite(id, uses, 0, now + seconds, false)];
      return None;
    }

    method RedeemInvite(actor: UserId, code: Code, now: int) returns (refusal: Option<Refusal>)
      modifies `conversations, `invites
      ensures Outcome(old(Contents()), Tx.RedeemInvite(old(Contents()), actor, code, now), refusal, Contents())
    {
      if code !in invites || !Redeemable(invites[code], now) {
        return Some(InviteNotFound);
      }
      var invite := invites[code];
      var id := invite.conversation;
      if IsMember(Contents(), id, actor) {
        return None;
      }
      if id !in conversations {
        return Some(ConversationNotFound);
      }
      if conversations[id].kind != Group {
        return Some(InviteNotFound);
      }
      if actor in conversations[id].bans {
        return Some(UserBanned);
      }
      var _ := InsertMember(id, actor);
      invites := invites[code := invite.(useCount := invite.useCount + 1)];
      if invite.maxUses > 0 && invite.useCount + 1 >= invite.maxUses {
        invites := invites[code := invites[code].(revoked := true)];
      }
      return None;
    }

    /** The trees are rebuilt one group at a time, in whatever order the rows come. */
    method RebuildTrees(actor: UserId)
      modifies `conversations
      ensures conversations.Keys == old(conversations).Keys
      ensures forall id :: id in conversations ==> conversations[id] == Rebuilt(old(conversations)[id], actor, devices)
    {
      hide BuildTree;
      ghost var before := conversations;
      var rows := set id | id in conversations && HasTree(conversations[id], actor);
      ghost var groups := rows;
      while rows != {}
        invariant rows <= groups && conversations.Keys == before.Keys
        invariant forall id :: id in conversations ==>
          conversations[id] == if id in groups - rows then Rebuilt(before[id], actor, devices) else before[id]
        decreases |rows|
      {
        var id :| id in rows;
        var tree := BuildTree(conversations[id], devices, conversations[id].mlsEpoch);
        conversations := conversations[id := conversations[id].(tree := Some(tree))];
        rows := rows - {id};
      }
    }

    method PublishBundle(actor: UserId, device: DeviceId, keys: Keys, phone: Option<Phone>) returns (refusal: Option<Refusal>)
      modifies `conversations, `devices
      ensures Outcome(old(Contents()), Tx.PublishBundle(old(Contents()), actor, device, keys, phone), refusal, Contents())
    {
      if device !in devices || devices[device].user != actor {
        return Some(DeviceNotOwned);
      }
      if !devices[device].capable {
        return Some(CapabilityRequired);
      }
      ghost var before := Contents();
      var prior := devices[device].published;
      devices := devices[device := devices[device].(published := Some(keys))];
      if phone.Some? {
        conversations := map id | id in conversations :: Converted(conversations[id], actor, phone);
      }
      if prior.None? || prior.value.fingerprint != keys.fingerprint {
        conversations := map id | id in conversations :: NextEpochs(conversations[id], actor);
        RebuildTrees(actor);
      }
      PublishedRows(before, actor, device, keys, phone, Contents());
      return None;
    }

    method VerifyPhone(user: UserId, phone: Phone, device: DeviceId, capable: bool) returns (refusal: Option<Refusal>)
      modifies `conversations, `devices
      ensures Outcome(old(Contents()), Tx.VerifyPhone(old(Contents()), user, phone, device, capable), refusal, Contents())
    {
      var before := conversations;
      conversations := map id | id in conversations ::
        var c := conversations[id];
        if c.external == Some(phone) then Joined(c, {user}) else c;
      if device in devices {
        conversations := before;
        return Some(Duplicate);
      }
      devices := devices[device := Tx.Device(user, capable, None)];
      return None;
    }
  }
}
