/** Whether the stored tree of an encrypted group is the tree of its current members, whose devices
    are the recipients of its messages: which requests keep it so, and what it is otherwise. */
module TreeGuarantees {
  import opened Options
  import opened Conversations
  import opened ConversationGuarantees

  /** The stored leaves are the devices of the current members with their current keys. */
  predicate TreeCurrent(c: Conversation, devices: map<DeviceId, Device>) {
    c.mls ==> c.tree.Some? && c.tree.value.leaves == LeavesOf(c.members.Keys, devices)
  }

  predicate TreesCurrent(db: Database) {
    forall id :: id in db.conversations ==> TreeCurrent(db.conversations[id], db.devices)
  }

  // ---- leaves ----

  predicate HasLeaf(devices: map<DeviceId, Device>, l: Leaf) {
    && l.device in devices && devices[l.device].user == l.user && devices[l.device].capable
    && devices[l.device].published.Some? && devices[l.device].published.value.agreement == l.key
  }

  lemma LeafIff(users: set<UserId>, devices: map<DeviceId, Device>)
    ensures forall l :: l in LeavesOf(users, devices) <==> l.user in users && HasLeaf(devices, l)
  {
  }

  lemma NoLeaves(u: UserId, devices: map<DeviceId, Device>)
    ensures CanEncrypt(devices, u) <==> exists l: Leaf :: l.user == u && HasLeaf(devices, l)
  {
    if CanEncrypt(devices, u) {
      var d :| d in devices && devices[d].user == u && devices[d].capable && devices[d].published.Some?;
      assert HasLeaf(devices, Leaf(u, d, devices[d].published.value.agreement));
    }
  }

  /** One user more or less changes the leaves by the devices of that user, so not at all if and only
      if the user has none that can encrypt. */
  lemma LeavesWithout(users: set<UserId>, u: UserId, devices: map<DeviceId, Device>)
    requires u !in users
    ensures LeavesOf(users + {u}, devices) == LeavesOf(users, devices) + LeavesOf({u}, devices)
    ensures LeavesOf(users + {u}, devices) == LeavesOf(users, devices) <==> !CanEncrypt(devices, u)
  {
    hide LeavesOf, CanEncrypt, HasLeaf;
    LeafIff(users, devices);
    LeafIff({u}, devices);
    LeafIff(users + {u}, devices);
    NoLeaves(u, devices);
    if CanEncrypt(devices, u) {
      var l: Leaf :| l.user == u && HasLeaf(devices, l);
      assert l in LeavesOf(users + {u}, devices) && l !in LeavesOf(users, devices);
    }
  }

  function Republished(devices: map<DeviceId, Device>, device: DeviceId, keys: Keys): map<DeviceId, Device>
    requires device in devices
  {
    devices[device := devices[device].(published := Some(keys))]
  }

  /** A device that had published keys publishes others: the leaves stay if and only if its owner is
      not among the users or the agreement key is the same. */
  lemma LeavesRepublished(users: set<UserId>, devices: map<DeviceId, Device>, device: DeviceId, keys: Keys)
    requires device in devices && devices[device].capable && devices[device].published.Some?
    ensures LeavesOf(users, Republished(devices, device, keys)) == LeavesOf(users, devices)
       <==> (devices[device].user in users ==> devices[device].published.value.agreement == keys.agreement)
  {
    hide LeavesOf;
    var d, next := devices[device], Republished(devices, device, keys);
    LeafIff(users, devices);
    LeafIff(users, next);
    if d.user in users && d.published.value.agreement != keys.agreement {
      var l := Leaf(d.user, device, d.published.value.agreement);
      assert l in LeavesOf(users, devices) && l !in LeavesOf(users, next);
    }
  }

  lemma LeavesOfNewDevice(users: set<UserId>, devices: map<DeviceId, Device>, device: DeviceId, d: Device)
    requires device !in devices && d.published.None?
    ensures LeavesOf(users, devices[device := d]) == LeavesOf(users, devices)
  {
    hide LeavesOf;
    LeafIff(users, devices);
    LeafIff(users, devices[device := d]);
  }

  lemma LeavesOfOthers(users: set<UserId>, devices: map<DeviceId, Device>, device: DeviceId, keys: Keys)
    requires device in devices && devices[device].user !in users
    ensures LeavesOf(users, Republished(devices, device, keys)) == LeavesOf(users, devices)
  {
    hide LeavesOf;
    LeafIff(users, devices);
    LeafIff(users, Republished(devices, device, keys));
  }

  // ---- one request ----

  /** The signing key is new, or there was none. Nothing else counts as a change of keys. */
  predicate NewSigningKey(db: Database, device: DeviceId, keys: Keys) {
    device in db.devices ==>
      db.devices[device].published.None? || db.devices[device].published.value.fingerprint != keys.fingerprint
  }

  /** The request stores a new tree for the conversation when it succeeds. */
  predicate Rebuilds(db: Database, r: Request, id: ConversationId) {
    match r
    case Creating(at, _, kind, _, _) => at == id && kind == Group
    case Updating(_, at, next) =>
      && at == id && id in db.conversations
      && var c := db.conversations[id];
      (if next.Some? then WithEncryption(c, Normalized(c.kind, next.value)) else c).mls
    case Adding(_, at, users) =>
      at == id && id in db.conversations && db.conversations[id].mls && !(Named(users) <= db.conversations[id].members.Keys)
    case Removing(_, at, _) => at == id && id in db.conversations && db.conversations[id].mls
    case Publishing(actor, device, keys, _) =>
      id in db.conversations && db.conversations[id].mls && actor in db.conversations[id].members
      && NewSigningKey(db, device, keys)
    case _ => false
  }

  /** When a request leaves a current tree current: a ban or a joining by invite only if the user has no
      device that can encrypt, new keys under the same signing key only with the same agreement key. */
  predicate KeepsTree(db: Database, r: Request, id: ConversationId) {
    id in db.conversations && db.conversations[id].mls ==>
      match r
      case Banning(_, at, target) => at == id ==> !CanEncrypt(db.devices, target)
      case Redeeming(actor, code, _) =>
        code in db.invites && db.invites[code].conversation == id && actor !in db.conversations[id].members ==>
          !CanEncrypt(db.devices, actor)
      case Publishing(actor, device, keys, _) =>
        actor in db.conversations[id].members && device in db.devices && !NewSigningKey(db, device, keys) ==>
          db.devices[device].published.value.agreement == keys.agreement
      case _ => true
  }

  /** The tree stored for the conversation is that of its members and devices at this moment. */
  predicate JustBuilt(db: Database, id: ConversationId) {
    && id in db.conversations && db.conversations[id].mls
    && db.conversations[id].tree == Some(BuildTree(db.conversations[id], db.devices, db.conversations[id].mlsEpoch))
  }

  lemma PublishRebuilds(db: Database, r: Request, id: ConversationId)
    requires SoundDatabase(db) && r.Publishing? && Transact(db, r).Ok? && Rebuilds(db, r, id)
    ensures JustBuilt(Transact(db, r).value, id)
  {
    hide LeavesOf;
    assert Sound(db.conversations[id]);
    assert Converted(db.conversations[id], r.actor, r.own) == db.conversations[id];
  }

  lemma MembersRebuild(db: Database, r: Request, id: ConversationId)
    requires SoundDatabase(db) && (r.Adding? || r.Removing?) && Transact(db, r).Ok? && Rebuilds(db, r, id)
    ensures JustBuilt(Transact(db, r).value, id)
  {
    hide LeavesOf, Owners;
    assert Sound(db.conversations[id]);
  }

  lemma UpdateRebuilds(db: Database, r: Request, id: ConversationId)
    requires (r.Creating? || r.Updating?) && Transact(db, r).Ok? && Rebuilds(db, r, id)
    ensures JustBuilt(Transact(db, r).value, id)
  {
    hide LeavesOf, Ready, WithEncryption, TargetEpoch;
  }

  /** Creating a group, any update that leaves encryption on, a real change of the member list and a
      new signing key store the tree of the members and devices of that moment, whatever it was before. */
  lemma RebuildsCurrent(db: Database, r: Request, id: ConversationId)
    requires SoundDatabase(db) && Transact(db, r).Ok? && Rebuilds(db, r, id)
    ensures JustBuilt(Transact(db, r).value, id)
  {
    hide SoundDatabase, Transact, JustBuilt;
    match r
    case Creating(_, _, _, _, _) => UpdateRebuilds(db, r, id);
    case Updating(_, _, _) => UpdateRebuilds(db, r, id);
    case Adding(_, _, _) => MembersRebuild(db, r, id);
    case Removing(_, _, _) => MembersRebuild(db, r, id);
    case Publishing(_, _, _, _) => PublishRebuilds(db, r, id);
  }

  /** The tree stays as stored, and the leaves it should have stay the same if and only if the guard holds. */
  predicate LeftAlone(db: Database, r: Request, id: ConversationId, next: Database) {
    id in next.conversations && next.conversations[id].mls ==>
      && id in db.conversations && db.conversations[id].mls && next.conversations[id].tree == db.conversations[id].tree
      && (LeavesOf(next.conversations[id].members.Keys, next.devices) == LeavesOf(db.conversations[id].members.Keys, db.devices)
          <==> KeepsTree(db, r, id))
  }

  lemma UpdateAlone(db: Database, r: Request, id: ConversationId)
    requires r.Updating? && Transact(db, r).Ok? && !Rebuilds(db, r, id)
    ensures LeftAlone(db, r, id, Transact(db, r).value)
  {
    hide LeavesOf, Ready, CanEncrypt, WithEncryption, TargetEpoch;
  }

  lemma RoleAlone(db: Database, r: Request, id: ConversationId)
    requires (r.ChangingRole? || r.Unbanning? || r.Inviting?) && Transact(db, r).Ok?
    ensures LeftAlone(db, r, id, Transact(db, r).value)
  {
    hide LeavesOf, CanEncrypt, Owners;
    if id in db.conversations {
      assert Transact(db, r).value.conversations[id].members.Keys == db.conversations[id].members.Keys;
    }
  }

  lemma CreateAlone(db: Database, r: Request, id: ConversationId)
    requires (r.Creating? || r.OpeningPhoneDm?) && Transact(db, r).Ok? && !Rebuilds(db, r, id)
    ensures LeftAlone(db, r, id, Transact(db, r).value)
  {
    hide LeavesOf, CanEncrypt;
  }

  lemma MembersAlone(db: Database, r: Request, id: ConversationId)
    requires SoundDatabase(db) && Transact(db, r).Ok? && !Rebuilds(db, r, id)
    requires r.Adding? || r.Removing?
    ensures LeftAlone(db, r, id, Transact(db, r).value)
  {
    hide LeavesOf;
    if id in db.conversations {
      assert Sound(db.conversations[id]);
    }
  }

  /** A ban takes the leaves of the banned user out of what the tree should be, and not out of the tree. */
  lemma BanAlone(db: Database, r: Request, id: ConversationId)
    requires r.Banning? && Transact(db, r).Ok?
    ensures LeftAlone(db, r, id, Transact(db, r).value)
  {
    hide LeavesOf, CanEncrypt, Owners;
    if id == r.id {
      var rest := db.conversations[id].members.Keys - {r.target};
      LeavesWithout(rest, r.target, db.devices);
      assert rest + {r.target} == db.conversations[id].members.Keys;
      assert (db.conversations[id].members - {r.target}).Keys == rest;
    }
  }

  lemma RedeemAlone(db: Database, r: Request, id: ConversationId)
    requires r.Redeeming? && Transact(db, r).Ok?
    ensures LeftAlone(db, r, id, Transact(db, r).value)
  {
    hide LeavesOf, CanEncrypt;
    if id == db.invites[r.code].conversation && !IsMember(db, id, r.actor) {
      LeavesWithout(db.conversations[id].members.Keys, r.actor, db.devices);
      assert Joined(db.conversations[id], {r.actor}).members.Keys == db.conversations[id].members.Keys + {r.actor};
    }
  }

  lemma VerifyAlone(db: Database, r: Request, id: ConversationId)
    requires SoundDatabase(db) && r.Verifying? && Transact(db, r).Ok?
    ensures LeftAlone(db, r, id, Transact(db, r).value)
  {
    hide LeavesOf;
    if id in db.conversations && db.conversations[id].mls {
      assert Sound(db.conversations[id]);
      LeavesOfNewDevice(db.conversations[id].members.Keys, db.devices, r.device, Device(r.user, r.capable, None));
    }
  }

  lemma PublishAlone(db: Database, r: Request, id: ConversationId)
    requires SoundDatabase(db) && r.Publishing? && Transact(db, r).Ok? && !Rebuilds(db, r, id)
    ensures LeftAlone(db, r, id, Transact(db, r).value)
  {
    hide LeavesOf;
    if id in db.conversations {
      var c := db.conversations[id];
      assert Sound(c);
      if r.actor !in c.members {
        LeavesOfOthers(c.members.Keys, db.devices, r.device, r.keys);
      } else if c.mls {
        LeavesRepublished(c.members.Keys, db.devices, r.device, r.keys);
      }
    }
  }

  lemma NotRebuilt(db: Database, r: Request, id: ConversationId)
    requires SoundDatabase(db) && Transact(db, r).Ok? && !Rebuilds(db, r, id)
    ensures LeftAlone(db, r, id, Transact(db, r).value)
  {
    hide SoundDatabase, LeftAlone, Transact, Rebuilds;
    match r
    case Adding(_, _, _) => MembersAlone(db, r, id);
    case Removing(_, _, _) => MembersAlone(db, r, id);
    case Banning(_, _, _) => BanAlone(db, r, id);
    case Redeeming(_, _, _) => RedeemAlone(db, r, id);
    case Publishing(_, _, _, _) => PublishAlone(db, r, id);
    case Verifying(_, _, _, _) => VerifyAlone(db, r, id);
    case Updating(_, _, _) => UpdateAlone(db, r, id);
    case Creating(_, _, _, _, _) => CreateAlone(db, r, id);
    case OpeningPhoneDm(_, _, _, _) => CreateAlone(db, r, id);
    case _ => RoleAlone(db, r, id);
  }

  /** From a current tree, exactly: a request that succeeds leaves a current tree if and only if it
      meets its guard. */
  lemma TreeStep(db: Database, r: Request, id: ConversationId)
    requires SoundDatabase(db) && Transact(db, r).Ok? && id in Transact(db, r).value.conversations
    requires id in db.conversations ==> TreeCurrent(db.conversations[id], db.devices)
    ensures var next := Transact(db, r).value;
            TreeCurrent(next.conversations[id], next.devices) <==> KeepsTree(db, r, id)
  {
    hide SoundDatabase, Transact, LeavesOf;
    if Rebuilds(db, r, id) {
      RebuildsCurrent(db, r, id);
    } else {
      NotRebuilt(db, r, id);
      if !Transact(db, r).value.conversations[id].mls {
        SwitchedOff(db, r, id);
      }
    }
  }

  /** Only turning encryption off ends MLS for a group, which has no guard. */
  lemma SwitchedOff(db: Database, r: Request, id: ConversationId)
    requires SoundDatabase(db) && Transact(db, r).Ok? && id in Transact(db, r).value.conversations
    requires !Transact(db, r).value.conversations[id].mls
    ensures KeepsTree(db, r, id)
  {
    hide LeavesOf, CanEncrypt;
  }

  // ---- whole runs ----

  /** Request `k` is refused or meets its guard for every conversation there is. */
  predicate GuardMet(requests: seq<Request>, k: nat)
    requires k < |requests|
  {
    Transact(After(requests, k), requests[k]).Ok? ==>
      forall id :: id in After(requests, k).conversations ==> KeepsTree(After(requests, k), requests[k], id)
  }

  lemma DatabaseStep(db: Database, r: Request)
    requires SoundDatabase(db) && TreesCurrent(db) && Transact(db, r).Ok?
    ensures TreesCurrent(Transact(db, r).value)
       <==> forall id :: id in db.conversations ==> KeepsTree(db, r, id)
  {
    hide SoundDatabase, Transact, TreeCurrent, KeepsTree;
    var next := Transact(db, r).value;
    forall id | id in next.conversations
      ensures TreeCurrent(next.conversations[id], next.devices) <==> KeepsTree(db, r, id)
    {
      TreeStep(db, r, id);
    }
    NoneVanish(db, r);
    NewOnesKeep(db, r);
  }

  lemma NoneVanish(db: Database, r: Request)
    requires SoundDatabase(db) && Transact(db, r).Ok?
    ensures forall id :: id in db.conversations ==> id in Transact(db, r).value.conversations
  {
    hide SoundDatabase, Transact;
    StepSound(db, r);
  }

  lemma NewOnesKeep(db: Database, r: Request)
    ensures forall id :: id !in db.conversations ==> KeepsTree(db, r, id)
  {
  }

  predicate CurrentAt(requests: seq<Request>, k: nat)
    requires k <= |requests|
  {
    TreesCurrent(After(requests, k))
  }

  /** Over every run all stored trees are current at all times if and only if every request that is not
      refused meets its guard when it happens. */
  lemma {:induction false} NeverStale(requests: seq<Request>, n: nat)
    requires n <= |requests|
    ensures (forall k :: 0 <= k <= n ==> CurrentAt(requests, k)) <==> (forall k :: 0 <= k < n ==> GuardMet(requests, k))
  {
    hide CurrentAt, GuardMet;
    if n == 0 {
      NothingStale(requests);
    } else {
      NeverStale(requests, n - 1);
      if CurrentAt(requests, n - 1) {
        OneStale(requests, n - 1);
      }
    }
  }

  lemma NothingStale(requests: seq<Request>)
    ensures CurrentAt(requests, 0)
  {
  }

  lemma OneStale(requests: seq<Request>, k: nat)
    requires k < |requests| && CurrentAt(requests, k)
    ensures CurrentAt(requests, k + 1) <==> GuardMet(requests, k)
  {
    hide Transact, TreesCurrent, KeepsTree, SoundDatabase;
    AlwaysSound(requests, k);
    if Transact(After(requests, k), requests[k]).Ok? {
      DatabaseStep(After(requests, k), requests[k]);
    }
  }

  /** After how many of the first `k` requests the tree of the conversation was stored last. */
  function LastRebuild(requests: seq<Request>, k: nat, id: ConversationId): (j: nat)
    requires k <= |requests|
    ensures j <= k
  {
    if k == 0 then 0
    else if Transact(After(requests, k - 1), requests[k - 1]).Ok? && Rebuilds(After(requests, k - 1), requests[k - 1], id) then k
    else LastRebuild(requests, k - 1, id)
  }

  /** Over every run the tree of an encrypted group is that of the members and devices at its last
      rebuild, so it is current if and only if those give the same leaves as the ones of now. */
  lemma {:induction false} TreeOfLastRebuild(requests: seq<Request>, k: nat, id: ConversationId)
    requires k <= |requests| && id in After(requests, k).conversations && After(requests, k).conversations[id].mls
    ensures var built := After(requests, LastRebuild(requests, k, id));
            var now := After(requests, k);
            && JustBuilt(built, id) && now.conversations[id].tree == built.conversations[id].tree
            && (TreeCurrent(now.conversations[id], now.devices)
                <==> LeavesOf(built.conversations[id].members.Keys, built.devices)
                     == LeavesOf(now.conversations[id].members.Keys, now.devices))
  {
    hide Transact, Rebuilds, KeepsTree, LeavesOf, SoundDatabase;
    if k > 0 {
      var db, r := After(requests, k - 1), requests[k - 1];
      AlwaysSound(requests, k - 1);
      if Transact(db, r).Err? {
        TreeOfLastRebuild(requests, k - 1, id);
      } else if Rebuilds(db, r, id) {
        RebuildsCurrent(db, r, id);
      } else {
        NotRebuilt(db, r, id);
        TreeOfLastRebuild(requests, k - 1, id);
      }
    }
  }

  // ---- how far a stale tree is off ----

  /** After a ban a tree that was current holds the leaves of the banned user on top of what it should. */
  lemma BanLeavesLeaves(db: Database, actor: UserId, id: ConversationId, target: UserId)
    requires BanMember(db, actor, id, target).Ok? && db.conversations[id].mls
    requires TreeCurrent(db.conversations[id], db.devices)
    ensures var c := BanMember(db, actor, id, target).value.conversations[id];
            && c.tree.Some? && c.tree.value.leaves == LeavesOf(c.members.Keys, db.devices) + LeavesOf({target}, db.devices)
            && c.epoch == db.conversations[id].epoch && c.mlsEpoch == db.conversations[id].mlsEpoch
            && (TreeCurrent(c, db.devices) <==> !CanEncrypt(db.devices, target))
  {
    hide LeavesOf, CanEncrypt, Owners;
    var rest := db.conversations[id].members.Keys - {target};
    LeavesWithout(rest, target, db.devices);
    assert rest + {target} == db.conversations[id].members.Keys;
    assert (db.conversations[id].members - {target}).Keys == rest;
  }

  /** After a joining by invite it lacks those of the user who joined. */
  lemma InviteLacksLeaves(db: Database, actor: UserId, code: Code, now: int)
    requires RedeemInvite(db, actor, code, now).Ok? && !IsMember(db, db.invites[code].conversation, actor)
    requires var c := db.conversations[db.invites[code].conversation]; c.mls && TreeCurrent(c, db.devices)
    ensures var id := db.invites[code].conversation;
            var c := RedeemInvite(db, actor, code, now).value.conversations[id];
            && c.tree.Some? && LeavesOf(c.members.Keys, db.devices) == c.tree.value.leaves + LeavesOf({actor}, db.devices)
            && c.epoch == db.conversations[id].epoch && c.mlsEpoch == db.conversations[id].mlsEpoch
            && (TreeCurrent(c, db.devices) <==> !CanEncrypt(db.devices, actor))
  {
    hide LeavesOf, CanEncrypt;
    var c := db.conversations[db.invites[code].conversation];
    LeavesWithout(c.members.Keys, actor, db.devices);
    assert Joined(c, {actor}).members.Keys == c.members.Keys + {actor};
  }

  /** New keys under the signing key of before change no epoch and no tree in any reachable database, so
      a current tree stays current if and only if its owner is no member or the agreement key is the same. */
  lemma SameSigningKey(requests: seq<Request>, k: nat, actor: UserId, device: DeviceId, keys: Keys, phone: Option<Phone>,
                       id: ConversationId)
    requires k <= |requests| && PublishBundle(After(requests, k), actor, device, keys, phone).Ok?
    requires !NewSigningKey(After(requests, k), device, keys)
    requires id in After(requests, k).conversations && After(requests, k).conversations[id].mls
    ensures var db := After(requests, k);
            var next := PublishBundle(db, actor, device, keys, phone).value;
            && next.conversations[id] == db.conversations[id]
            && (TreeCurrent(db.conversations[id], db.devices) ==>
                  (TreeCurrent(next.conversations[id], next.devices)
                   <==> (IsMember(db, id, actor) ==> db.devices[device].published.value.agreement == keys.agreement)))
  {
    hide After, LeavesOf;
    var db, r := After(requests, k), Publishing(actor, device, keys, phone);
    AlwaysSound(requests, k);
    assert Sound(db.conversations[id]);
    if TreeCurrent(db.conversations[id], db.devices) {
      TreeStep(db, r, id);
    }
  }

  // ---- the failing runs ----

  /** Two users sign in with a device each and publish keys, and one creates a group with the other. */
  function GroupOfTwo(id: ConversationId, a: UserId, b: UserId, phone: Phone, p: DeviceId, q: DeviceId, keys: Keys): seq<Request> {
    [Verifying(a, phone, p, true), Verifying(b, phone, q, true), Publishing(a, p, keys, None), Publishing(b, q, keys, None),
     Creating(id, a, Group, [Some(b)], Encrypted)]
  }

  function GroupRow(a: UserId, b: UserId, p: DeviceId, q: DeviceId, keys: Keys): Conversation {
    Conversation(Group, Encrypted, 1, true, 1, Some(Tree(1, {Leaf(a, p, keys.agreement), Leaf(b, q, keys.agreement)})),
                 map[a := Owner, b := Member], {}, None)
  }

  lemma RunNext(requests: seq<Request>, k: nat)
    requires k < |requests|
    ensures After(requests, k + 1)
         == match Transact(After(requests, k), requests[k])
            case Ok(next) => next
            case Err(_) => After(requests, k)
  {
  }

  lemma TwoSignIn(a: UserId, b: UserId, phone: Phone, p: DeviceId, q: DeviceId)
    requires p != q
    ensures var one := VerifyPhone(Database(map[], map[], map[]), a, phone, p, true);
            && one.Ok?
            && VerifyPhone(one.value, b, phone, q, true)
               == Ok(Database(map[], map[], map[p := Device(a, true, None), q := Device(b, true, None)]))
  {
  }

  lemma TwoPublish(a: UserId, b: UserId, p: DeviceId, q: DeviceId, keys: Keys)
    requires p != q
    ensures var db := Database(map[], map[], map[p := Device(a, true, None), q := Device(b, true, None)]);
            var one := PublishBundle(db, a, p, keys, None);
            && one.Ok?
            && PublishBundle(one.value, b, q, keys, None)
               == Ok(Database(map[], map[], map[p := Device(a, true, Some(keys)), q := Device(b, true, Some(keys))]))
  {
    var db := Database(map[], map[], map[p := Device(a, true, None), q := Device(b, true, None)]);
    var one := PublishBundle(db, a, p, keys, None).value;
    assert one == Database(map[], map[], map[p := Device(a, true, Some(keys)), q := Device(b, true, None)]);
    var two := PublishBundle(one, b, q, keys, None).value;
    assert two.conversations == map[];
    assert two.devices == map[p := Device(a, true, Some(keys)), q := Device(b, true, Some(keys))];
  }

  lemma OneCreates(id: ConversationId, a: UserId, b: UserId, p: DeviceId, q: DeviceId, keys: Keys)
    requires a != b && p != q
    ensures var devices := map[p := Device(a, true, Some(keys)), q := Device(b, true, Some(keys))];
            CreateConversation(Database(map[], map[], devices), id, a, Group, [Some(b)], Encrypted)
            == Ok(Database(map[id := GroupRow(a, b, p, q, keys)], map[], devices))
  {
    hide LeavesOf;
    var devices := map[p := Device(a, true, Some(keys)), q := Device(b, true, Some(keys))];
    assert [Some(b)][0] == Some(b);
    assert Named([Some(b)]) == {b};
    assert InitialMembers(a, Group, [Some(b)]) == map[a := Owner, b := Member];
    assert map[a := Owner, b := Member].Keys == {a, b};
    TwoLeaves(devices, a, b, p, q, keys);
  }

  lemma GroupCreated(requests: seq<Request>, id: ConversationId, a: UserId, b: UserId, phone: Phone, p: DeviceId, q: DeviceId, keys: Keys)
    requires a != b && p != q && |requests| >= 5 && requests[..5] == GroupOfTwo(id, a, b, phone, p, q, keys)
    ensures After(requests, 5)
         == Database(map[id := GroupRow(a, b, p, q, keys)], map[], map[p := Device(a, true, Some(keys)), q := Device(b, true, Some(keys))])
  {
    hide After, VerifyPhone, PublishBundle, CreateConversation;
    assert forall i :: 0 <= i < 5 ==> requests[i] == requests[..5][i];
    TwoSignIn(a, b, phone, p, q);
    TwoPublish(a, b, p, q, keys);
    OneCreates(id, a, b, p, q, keys);
    RunNext(requests, 0);
    RunNext(requests, 1);
    RunNext(requests, 2);
    RunNext(requests, 3);
    RunNext(requests, 4);
    NothingYet(requests);
  }

  lemma NothingYet(requests: seq<Request>)
    ensures After(requests, 0) == Database(map[], map[], map[])
  {
  }

  lemma TwoLeaves(devices: map<DeviceId, Device>, a: UserId, b: UserId, p: DeviceId, q: DeviceId, keys: Keys)
    requires a != b && p != q && devices == map[p := Device(a, true, Some(keys)), q := Device(b, true, Some(keys))]
    ensures LeavesOf({a, b}, devices) == {Leaf(a, p, keys.agreement), Leaf(b, q, keys.agreement)}
  {
    hide LeavesOf;
    LeafIff({a, b}, devices);
  }

  /** The failing run for a ban: the banned user is out, and the tree of epoch one still has the leaf. */
  lemma BannedStaysInTree(id: ConversationId, a: UserId, b: UserId, phone: Phone, p: DeviceId, q: DeviceId, keys: Keys)
    requires a != b && p != q
    ensures var now := After(GroupOfTwo(id, a, b, phone, p, q, keys) + [Banning(a, id, b)], 6);
            && id in now.conversations && b !in now.conversations[id].members && b in now.conversations[id].bans
            && now.conversations[id].mlsEpoch == 1 && now.conversations[id].tree.Some?
            && Leaf(b, q, keys.agreement) in now.conversations[id].tree.value.leaves
            && !TreeCurrent(now.conversations[id], now.devices)
  {
    hide LeavesOf, After;
    var requests := GroupOfTwo(id, a, b, phone, p, q, keys) + [Banning(a, id, b)];
    GroupCreated(requests, id, a, b, phone, p, q, keys);
    RunNext(requests, 5);
    LeafIff({a}, After(requests, 5).devices);
    assert (map[a := Owner, b := Member] - {b}).Keys == {a};
    assert Leaf(b, q, keys.agreement) !in LeavesOf({a}, After(requests, 5).devices);
  }

  /** The failing run for new keys: another agreement key under the same signing key changes neither
      epoch nor tree. */
  lemma NewAgreementKeyMissed(id: ConversationId, a: UserId, b: UserId, phone: Phone, p: DeviceId, q: DeviceId, keys: Keys, agreement: string)
    requires a != b && p != q && agreement != keys.agreement
    ensures var next := keys.(agreement := agreement);
            var now := After(GroupOfTwo(id, a, b, phone, p, q, keys) + [Publishing(b, q, next, None)], 6);
            && q in now.devices && now.devices[q] == Device(b, true, Some(next))
            && now.conversations == map[id := GroupRow(a, b, p, q, keys)]
            && !TreeCurrent(now.conversations[id], now.devices)
  {
    hide LeavesOf, After;
    var next := keys.(agreement := agreement);
    var requests := GroupOfTwo(id, a, b, phone, p, q, keys) + [Publishing(b, q, next, None)];
    GroupCreated(requests, id, a, b, phone, p, q, keys);
    RunNext(requests, 5);
    var now := After(requests, 6);
    assert now.devices == After(requests, 5).devices[q := Device(b, true, Some(next))];
    assert now.conversations == After(requests, 5).conversations;
    LeafIff({a, b}, now.devices);
    assert map[a := Owner, b := Member].Keys == {a, b};
    assert Leaf(b, q, keys.agreement) !in LeavesOf({a, b}, now.devices);
  }

  /** The failing run for an invite: who joins by it has no leaf until something else rebuilds the tree. */
  lemma InvitedNotInTree(id: ConversationId, a: UserId, b: UserId, c: UserId, phone: Phone, p: DeviceId, q: DeviceId, d: DeviceId,
                         keys: Keys, code: Code)
    requires a != b && c != a && c != b && p != q && d != p && d != q
    ensures var requests := GroupOfTwo(id, a, b, phone, p, q, keys)
                            + [Verifying(c, phone, d, true), Publishing(c, d, keys, None), Inviting(a, id, code, 1, 0, 0), Redeeming(c, code, 0)];
            var now := After(requests, 9);
            && id in now.conversations && c in now.conversations[id].members && CanEncrypt(now.devices, c)
            && now.conversations[id].mlsEpoch == 1 && now.conversations[id].tree.Some?
            && (forall l :: l in now.conversations[id].tree.value.leaves ==> l.user != c)
            && !TreeCurrent(now.conversations[id], now.devices)
  {
    hide LeavesOf, After, CanEncrypt, Joined, VerifyPhone, PublishBundle, CreateInvite, RedeemInvite;
    var requests := GroupOfTwo(id, a, b, phone, p, q, keys)
                    + [Verifying(c, phone, d, true), Publishing(c, d, keys, None), Inviting(a, id, code, 1, 0, 0), Redeeming(c, code, 0)];
    GroupCreated(requests, id, a, b, phone, p, q, keys);
    var row, devices := GroupRow(a, b, p, q, keys), After(requests, 5).devices[d := Device(c, true, Some(keys))];
    ThirdPublishes(After(requests, 5), id, row, c, phone, d, keys);
    RunNext(requests, 5);
    RunNext(requests, 6);
    RunNext(requests, 7);
    RunNext(requests, 8);
    InvitedJoins(Database(map[id := row], map[], devices), id, row, a, c, code);
    JoinedMembers(row, c);
    NotAmong({a, b}, devices, c, d, keys);
    assert row.members.Keys == {a, b};
  }

  lemma InvitedJoins(db: Database, id: ConversationId, row: Conversation, a: UserId, c: UserId, code: Code)
    requires db.conversations == map[id := row] && db.invites == map[] && row.kind == Group
    requires a in row.members && row.members[a] == Owner && c !in row.members && c !in row.bans
    ensures var one := CreateInvite(db, a, id, code, 1, 0, 0);
            && one.Ok? && RedeemInvite(one.value, c, code, 0).Ok?
            && RedeemInvite(one.value, c, code, 0).value.conversations == map[id := Joined(row, {c})]
            && RedeemInvite(one.value, c, code, 0).value.devices == db.devices
  {
    hide Joined;
  }

  lemma NotAmong(users: set<UserId>, devices: map<DeviceId, Device>, c: UserId, d: DeviceId, keys: Keys)
    requires c !in users && d in devices && devices[d] == Device(c, true, Some(keys))
    ensures CanEncrypt(devices, c) && LeavesOf(users + {c}, devices) != LeavesOf(users, devices)
    ensures Leaf(c, d, keys.agreement) in LeavesOf(users + {c}, devices)
  {
    LeavesWithout(users, c, devices);
  }

  lemma ThirdPublishes(db: Database, id: ConversationId, row: Conversation, c: UserId, phone: Phone, d: DeviceId, keys: Keys)
    requires db.conversations == map[id := row] && row.external.None? && c !in row.members && d !in db.devices
    ensures var one := VerifyPhone(db, c, phone, d, true);
            && one.Ok?
            && PublishBundle(one.value, c, d, keys, None)
               == Ok(db.(devices := db.devices[d := Device(c, true, Some(keys))]))
  {
    var one := VerifyPhone(db, c, phone, d, true).value;
    assert one.conversations == db.conversations;
    var two := PublishBundle(one, c, d, keys, None).value;
    assert two.conversations == db.conversations;
    assert two.devices == db.devices[d := Device(c, true, Some(keys))];
  }
}
