/** Session records, devices and envelopes, and what one send and one receive compute from
    them. The methods of `SignalDevices` are proved against these functions. */
module SignalRecords {
  import opened Options
  import opened KeySchedule
  import opened SkippedKeys

  type Peer = string
  type Content = string

  /** One session record. A missing chain key is the source's empty string. */
  datatype Record = Record(
    rootKey: RootKey,
    sendChain: Option<ChainKey>,
    receiveChain: Option<ChainKey>,
    sendCount: nat,
    receiveCount: nat,
    previousSendCount: nat,
    localRatchet: KeyId,
    remoteRatchet: Option<KeyId>,
    pendingRatchet: bool,
    skipped: Store)

  datatype OneTimePrekey = OneTimePrekey(key: KeyId, consumed: bool)

  datatype Device = Device(
    identity: KeyId,
    signedPrekey: KeyId,
    oneTimePrekeys: map<nat, OneTimePrekey>,
    sessions: map<Peer, Record>)

  datatype ClaimedPrekey = ClaimedPrekey(id: nat, key: KeyId)

  /** The published keys of the device to send to, with the one-time prekey claimed for this send. */
  datatype Bundle = Bundle(
    peer: Peer,
    identity: KeyId,
    signedPrekey: KeyId,
    signedPrekeyId: nat,
    claimed: Option<ClaimedPrekey>)

  /** A zero one-time prekey id stands for an absent one. */
  datatype InitialSession = InitialSession(senderEphemeral: KeyId, signedPrekeyId: nat, oneTimePrekeyId: nat)

  datatype Header = Header(
    ratchetKey: KeyId,
    previousChainLength: nat,
    messageNumber: nat,
    initialSession: Option<InitialSession>)

  /** An authenticated box: it opens under the key that sealed it and under no other. */
  datatype Box = Box(key: MessageKey, content: Content)

  datatype Envelope = Envelope(sender: Peer, senderIdentity: KeyId, header: Header, box: Box)

  datatype Failure =
    | MissingSkippedKey   // the receiver has already moved past this message number
    | OperationError      // the box did not open
    | NoRemoteKey         // a sending rotation without a remote ratchet key

  datatype Result<+T> = Ok(value: T) | Err(failure: Failure)

  /** A record read from nothing: its ratchet key pair defaults to the signed prekey. */
  function EmptyRecord(d: Device): Record {
    Record(NoRoot, None, None, 0, 0, 0, d.signedPrekey, None, false, [])
  }

  function RecordFor(d: Device, peer: Peer): Record {
    if peer in d.sessions then d.sessions[peer] else EmptyRecord(d)
  }

  // ---- X3DH ----

  function InitiatorSegments(identity: KeyId, ephemeral: KeyId, bundle: Bundle): seq<Secret> {
    [SharedSecret(identity, bundle.signedPrekey),
     SharedSecret(ephemeral, bundle.identity),
     SharedSecret(ephemeral, bundle.signedPrekey)]
    + if bundle.claimed.Some? then [SharedSecret(ephemeral, bundle.claimed.value.key)] else []
  }

  function ResponderSegments(d: Device, senderIdentity: KeyId, initial: InitialSession): seq<Secret> {
    var id := initial.oneTimePrekeyId;
    [SharedSecret(d.signedPrekey, senderIdentity),
     SharedSecret(d.identity, initial.senderEphemeral),
     SharedSecret(d.signedPrekey, initial.senderEphemeral)]
    + if id in d.oneTimePrekeys then [SharedSecret(d.oneTimePrekeys[id].key, initial.senderEphemeral)] else []
  }

  function ConsumePrekey(prekeys: map<nat, OneTimePrekey>, id: nat): map<nat, OneTimePrekey> {
    if id in prekeys then prekeys[id := prekeys[id].(consumed := true)] else prekeys
  }

  function InitialHeader(bundle: Bundle, ephemeral: KeyId): InitialSession {
    InitialSession(ephemeral, bundle.signedPrekeyId, if bundle.claimed.Some? then bundle.claimed.value.id else 0)
  }

  // ---- sending ----

  /** The record an initiator starts with, given the two key pairs it has just generated. */
  function OutboundRecord(d: Device, bundle: Bundle, ratchet: KeyId, ephemeral: KeyId): Record {
    var (root, chain) := KdfRoot(X3dhRoot(InitiatorSegments(d.identity, ephemeral, bundle)),
                                 SharedSecret(ratchet, bundle.signedPrekey));
    Record(root, Some(chain), None, 0, 0, 0, ratchet, Some(bundle.signedPrekey), false, [])
  }

  function Rotated(r: Record, ratchet: KeyId): Record
    requires r.remoteRatchet.Some?
  {
    var (root, chain) := KdfRoot(r.rootKey, SharedSecret(ratchet, r.remoteRatchet.value));
    r.(rootKey := root, sendChain := Some(chain), previousSendCount := r.sendCount, sendCount := 0,
       localRatchet := ratchet, pendingRatchet := false)
  }

  /** The record a send works from: a new one, a rotated one, or the stored one as it is. */
  function SendingRecord(d: Device, bundle: Bundle, ratchet: KeyId, ephemeral: KeyId): (r: Result<Record>)
    ensures r.Ok? ==> r.value.sendChain.Some?
  {
    if bundle.peer !in d.sessions then Ok(OutboundRecord(d, bundle, ratchet, ephemeral))
    else
      var r := d.sessions[bundle.peer];
      if !r.pendingRatchet && r.sendChain.Some? then Ok(r)
      else if r.remoteRatchet.None? then Err(NoRemoteKey)
      else Ok(Rotated(r, ratchet))
  }

  datatype Sent = Sent(device: Device, header: Header, key: MessageKey)

  function Send(d: Device, bundle: Bundle, ratchet: KeyId, ephemeral: KeyId): Result<Sent> {
    match SendingRecord(d, bundle, ratchet, ephemeral)
    case Err(e) => Err(e)
    case Ok(r) =>
      var (next, key) := KdfChain(r.sendChain.value);
      var initial := if bundle.peer in d.sessions then None else Some(InitialHeader(bundle, ephemeral));
      var after := r.(sendChain := Some(next), sendCount := r.sendCount + 1);
      Ok(Sent(d.(sessions := d.sessions[bundle.peer := after]),
              Header(r.localRatchet, r.previousSendCount, r.sendCount, initial), key))
  }

  // ---- receiving ----

  datatype Entered = Entered(record: Record, oneTimePrekeys: map<nat, OneTimePrekey>)

  /** The record after the chain of the envelope's ratchet key has been entered, if it was not
      the current one already. */
  function EnterChain(d: Device, r: Record, env: Envelope): (e: Entered)
    ensures e.record.receiveChain.Some? && e.record.remoteRatchet == Some(env.header.ratchetKey)
  {
    var remote := env.header.ratchetKey;
    if r.remoteRatchet == Some(remote) && r.receiveChain.Some? then Entered(r, d.oneTimePrekeys)
    else
      var initial := env.header.initialSession;
      var accepts := r.receiveChain.None? && initial.Some?;
      var base := if accepts then X3dhRoot(ResponderSegments(d, env.senderIdentity, initial.value)) else r.rootKey;
      var local := if accepts then d.signedPrekey else r.localRatchet;
      var prekeys := if accepts then ConsumePrekey(d.oneTimePrekeys, initial.value.oneTimePrekeyId) else d.oneTimePrekeys;
      var (root, chain) := KdfRoot(base, SharedSecret(local, remote));
      Entered(r.(rootKey := root, receiveChain := Some(chain), receiveCount := 0,
                 remoteRatchet := Some(remote), pendingRatchet := true), prekeys)
  }

  datatype Received = Received(record: Record, oneTimePrekeys: map<nat, OneTimePrekey>, key: MessageKey)

  /** The message key a receiver derives for an envelope, and the record it is left with. */
  function Receive(d: Device, r: Record, env: Envelope): Result<Received> {
    var remote, n := env.header.ratchetKey, env.header.messageNumber;
    match Lookup(r.skipped, remote, n)
    case Some(key) => Ok(Received(r.(skipped := Remove(r.skipped, remote, n)), d.oneTimePrekeys, key))
    case None =>
      var Entered(e, prekeys) := EnterChain(d, r, env);
      if n < e.receiveCount then Err(MissingSkippedKey)
      else
        var start := e.receiveChain.value;
        var (next, key) := KdfChain(ChainAt(start, n - e.receiveCount));
        var stash := StashAll(e.skipped, Skips(remote, start, e.receiveCount, n));
        Ok(Received(e.(receiveChain := Some(next), receiveCount := n + 1, skipped := stash), prekeys, key))
  }

  datatype Opened = Opened(device: Device, content: Content)

  /** One decryption attempt, from the stored record or from an empty one. */
  function Attempt(d: Device, env: Envelope, anew: bool): Result<Opened> {
    var r := if anew then EmptyRecord(d) else RecordFor(d, env.sender);
    match Receive(d, r, env)
    case Err(e) => Err(e)
    case Ok(got) =>
      if got.key != env.box.key then Err(OperationError)
      else Ok(Opened(d.(oneTimePrekeys := got.oneTimePrekeys, sessions := d.sessions[env.sender := got.record]),
                     env.box.content))
  }

  predicate MayRetry(d: Device, env: Envelope, failure: Failure) {
    failure == OperationError && env.header.initialSession.Some? && env.sender in d.sessions
  }

  /** Decryption with the single retry from an empty record. */
  function Decrypt(d: Device, env: Envelope): Result<Opened> {
    var first := Attempt(d, env, false);
    if first.Err? && MayRetry(d, env, first.failure) then Attempt(d, env, true) else first
  }

  // ---- facts about single steps ----

  /** The record after message `n` of its receive chain, which starts at `start`, has been read. */
  function Stepped(r: Record, start: ChainKey, n: nat): Record
    requires r.receiveChain.Some? && r.remoteRatchet.Some? && r.receiveCount <= n
  {
    r.(receiveChain := Some(ChainAt(start, n + 1)), receiveCount := n + 1,
       skipped := StashAll(r.skipped, Skips(r.remoteRatchet.value, r.receiveChain.value, r.receiveCount, n)))
  }

  /** A message at or past the count of the chain it belongs to, once that chain is entered. */
  lemma ReceiveAhead(d: Device, r: Record, env: Envelope, start: ChainKey, e: Entered)
    requires !Has(r.skipped, env.header.ratchetKey, env.header.messageNumber)
    requires e == EnterChain(d, r, env)
    requires e.record.receiveCount <= env.header.messageNumber
    requires e.record.receiveChain == Some(ChainAt(start, e.record.receiveCount))
    ensures Receive(d, r, env)
         == Ok(Received(Stepped(e.record, start, env.header.messageNumber), e.oneTimePrekeys,
                        KeyAt(start, env.header.messageNumber)))
  {
    hide StashAll, Skips;
    ChainAtCompose(start, e.record.receiveCount, env.header.messageNumber - e.record.receiveCount);
  }

  /** The four shared secrets in the order of section 3.3 of X3DH, each as the pair of keys behind it:
      identity and signed prekey, ephemeral and identity, ephemeral and signed prekey, and the
      ephemeral with the one-time prekey if there is one. */
  lemma X3dhOrder(identity: KeyId, ephemeral: KeyId, bundle: Bundle)
    ensures var s := InitiatorSegments(identity, ephemeral, bundle);
            && |s| == (if bundle.claimed.Some? then 4 else 3)
            && {s[0].low, s[0].high} == {identity, bundle.signedPrekey}
            && {s[1].low, s[1].high} == {ephemeral, bundle.identity}
            && {s[2].low, s[2].high} == {ephemeral, bundle.signedPrekey}
            && (bundle.claimed.Some? ==> {s[3].low, s[3].high} == {ephemeral, bundle.claimed.value.key})
    ensures var initial := InitialHeader(bundle, ephemeral);
            && initial.senderEphemeral == ephemeral && initial.signedPrekeyId == bundle.signedPrekeyId
            && initial.oneTimePrekeyId == (if bundle.claimed.Some? then bundle.claimed.value.id else 0)
  {
  }

  lemma SecretBinds(a: KeyId, b: KeyId, c: KeyId)
    ensures SharedSecret(a, b) == SharedSecret(a, c) <==> b == c
    ensures SharedSecret(a, b) == SharedSecret(b, a)
  {
  }

  /** X3DH agreement, exactly: the two roots are equal if and only if the responder holds the keys of the
      bundle, takes the initiator for who it is and looks up precisely the one-time prekey it used. */
  lemma X3dhAgreement(initiator: KeyId, sender: KeyId, ephemeral: KeyId, bundle: Bundle, responder: Device)
    ensures var initial := InitialHeader(bundle, ephemeral);
            X3dhRoot(InitiatorSegments(initiator, ephemeral, bundle))
              == X3dhRoot(ResponderSegments(responder, sender, initial))
            <==> && sender == initiator
                 && bundle.identity == responder.identity && bundle.signedPrekey == responder.signedPrekey
                 && match bundle.claimed
                    case None => 0 !in responder.oneTimePrekeys
                    case Some(c) => c.id in responder.oneTimePrekeys && responder.oneTimePrekeys[c.id].key == c.key
  {
    hide SharedSecret;
    var initial := InitialHeader(bundle, ephemeral);
    var a, b := InitiatorSegments(initiator, ephemeral, bundle), ResponderSegments(responder, sender, initial);
    SecretBinds(ephemeral, bundle.identity, responder.identity);
    SecretBinds(ephemeral, bundle.signedPrekey, responder.signedPrekey);
    SecretBinds(responder.identity, ephemeral, ephemeral);
    SecretBinds(responder.signedPrekey, ephemeral, ephemeral);
    SecretBinds(bundle.signedPrekey, initiator, sender);
    SecretBinds(initiator, bundle.signedPrekey, initiator);
    if bundle.claimed.Some? && bundle.claimed.value.id in responder.oneTimePrekeys {
      var key := responder.oneTimePrekeys[bundle.claimed.value.id].key;
      SecretBinds(ephemeral, bundle.claimed.value.key, key);
      SecretBinds(key, ephemeral, ephemeral);
    }
    if a == b {
      assert a[0] == b[0] && a[1] == b[1] && a[2] == b[2];
      assert |a| == 4 ==> a[3] == b[3];
    } else if bundle.identity == responder.identity && bundle.signedPrekey == responder.signedPrekey && sender == initiator {
      assert forall i :: 0 <= i < 3 ==> a[i] == b[i];
      assert |a| == |b| == 4 ==> a[3] != b[3];
    }
  }

  /** The envelope opens a session with this one-time prekey. */
  predicate Opens(env: Envelope, id: nat) {
    env.header.initialSession.Some? && env.header.initialSession.value.oneTimePrekeyId == id
  }

  /** What opening an envelope does to the one-time prekeys of the device, without a session before or
      with an envelope that opens none: exactly the prekey a session-opening header names is consumed;
      no prekey comes, goes or changes its key. */
  lemma PrekeysAfterOpening(d: Device, env: Envelope)
    requires Decrypt(d, env).Ok? && (env.sender !in d.sessions || env.header.initialSession.None?)
    ensures var before, after := d.oneTimePrekeys, Decrypt(d, env).value.device.oneTimePrekeys;
            && after.Keys == before.Keys
            && forall id :: id in before ==>
                 && after[id].key == before[id].key
                 && (after[id].consumed <==> before[id].consumed || Opens(env, id))
  {
    hide StashAll, Skips, ChainAt, ResponderSegments;
  }

  /** Session establishment: when the prekey lookup agrees, the first message opens, and both
      sides then hold the same root and the responder's receive chain is the initiator's send chain. */
  lemma SessionEstablished(initiator: Device, self: Peer, responder: Device, bundle: Bundle,
                           ratchet: KeyId, ephemeral: KeyId, content: Content)
    requires bundle.peer !in initiator.sessions && self !in responder.sessions
    requires bundle.identity == responder.identity && bundle.signedPrekey == responder.signedPrekey
    requires match bundle.claimed
             case None => 0 !in responder.oneTimePrekeys
             case Some(c) => c.id in responder.oneTimePrekeys && responder.oneTimePrekeys[c.id].key == c.key
    ensures var sent := Send(initiator, bundle, ratchet, ephemeral);
            && sent.Ok?
            && var env := Envelope(self, initiator.identity, sent.value.header, Box(sent.value.key, content));
            var got := Decrypt(responder, env);
            && got.Ok? && got.value.content == content
            && var a, b := sent.value.device.sessions[bundle.peer], got.value.device.sessions[self];
            && a.rootKey == b.rootKey && b.receiveChain == a.sendChain
            && b.receiveCount == a.sendCount == 1 && b.remoteRatchet == Some(a.localRatchet)
            && b.pendingRatchet && !a.pendingRatchet && b.skipped == []
            && var before, after := responder.oneTimePrekeys, got.value.device.oneTimePrekeys;
            && after.Keys == before.Keys
            && forall id :: id in before ==>
                 && after[id].key == before[id].key
                 && (after[id].consumed <==> before[id].consumed || (bundle.claimed.Some? && bundle.claimed.value.id == id))
  {
    X3dhAgreement(initiator.identity, initiator.identity, ephemeral, bundle, responder);
    var sent := Send(initiator, bundle, ratchet, ephemeral).value;
    var env := Envelope(self, initiator.identity, sent.header, Box(sent.key, content));
    var record := EmptyRecord(responder);
    assert Lookup(record.skipped, ratchet, 0) == None;
    assert SharedSecret(ratchet, bundle.signedPrekey) == SharedSecret(responder.signedPrekey, ratchet);
    assert EnterChain(responder, record, env).record.receiveChain
        == OutboundRecord(initiator, bundle, ratchet, ephemeral).sendChain;
    assert StashAll([], Skips(ratchet, EnterChain(responder, record, env).record.receiveChain.value, 0, 0)) == [];
    PrekeysAfterOpening(responder, env);
  }

  /** A send fails only for want of a remote ratchet key where a rotation is due. Otherwise it seals with the
      key of the sending chain and moves that one session a step on: the header carries the count from
      before, and nothing else of the device changes. */
  lemma SendExactly(d: Device, bundle: Bundle, ratchet: KeyId, ephemeral: KeyId)
    ensures var sent, known := Send(d, bundle, ratchet, ephemeral), bundle.peer in d.sessions;
            var rotates := known && (d.sessions[bundle.peer].pendingRatchet || d.sessions[bundle.peer].sendChain.None?);
            && (sent.Err? <==> rotates && d.sessions[bundle.peer].remoteRatchet.None?)
            && (sent.Err? ==> sent.failure == NoRemoteKey)
            && (sent.Ok? ==>
                  && bundle.peer in sent.value.device.sessions
                  && var after, header := sent.value.device.sessions[bundle.peer], sent.value.header;
                  && sent.value.device == d.(sessions := d.sessions[bundle.peer := after])
                  && after.sendChain == Some(NextChain(sent.value.key.chain)) && after.sendCount == header.messageNumber + 1
                  && header.ratchetKey == after.localRatchet == (if known && !rotates then d.sessions[bundle.peer].localRatchet else ratchet)
                  && header.messageNumber == (if known && !rotates then d.sessions[bundle.peer].sendCount else 0)
                  && header.previousChainLength == after.previousSendCount
                  && (rotates ==> header.previousChainLength == d.sessions[bundle.peer].sendCount)
                  && (header.initialSession.Some? <==> !known) && !after.pendingRatchet)
  {
  }

  /** Crossed openings: a device that has opened a session of its own to the peer and received nothing on it
      opens the peer's first message all the same. It takes the peer's root and receive chain, keeps its
      own ratchet key, and is due to rotate, so its next message goes out under the peer's root. */
  lemma OpeningsCross(initiator: Device, self: Peer, responder: Device, bundle: Bundle,
                      ratchet: KeyId, ephemeral: KeyId, content: Content)
    requires bundle.peer !in initiator.sessions && self in responder.sessions
    requires responder.sessions[self].receiveChain.None? && !Has(responder.sessions[self].skipped, ratchet, 0)
    requires bundle.identity == responder.identity && bundle.signedPrekey == responder.signedPrekey
    requires match bundle.claimed
             case None => 0 !in responder.oneTimePrekeys
             case Some(c) => c.id in responder.oneTimePrekeys && responder.oneTimePrekeys[c.id].key == c.key
    ensures var sent := Send(initiator, bundle, ratchet, ephemeral);
            && sent.Ok?
            && var env := Envelope(self, initiator.identity, sent.value.header, Box(sent.value.key, content));
            var got := Decrypt(responder, env);
            && got.Ok? && got.value.content == content
            && var a, b := sent.value.device.sessions[bundle.peer], got.value.device.sessions[self];
            && a.rootKey == b.rootKey && b.receiveChain == a.sendChain && b.receiveCount == 1
            && b.remoteRatchet == Some(ratchet) && b.pendingRatchet
            && b.localRatchet == responder.sessions[self].localRatchet && b.sendChain == responder.sessions[self].sendChain
  {
    X3dhAgreement(initiator.identity, initiator.identity, ephemeral, bundle, responder);
    var sent := Send(initiator, bundle, ratchet, ephemeral).value;
    var env := Envelope(self, initiator.identity, sent.header, Box(sent.key, content));
    var record := responder.sessions[self];
    SecretBinds(ratchet, bundle.signedPrekey, responder.signedPrekey);
    SecretBinds(responder.signedPrekey, ratchet, ratchet);
    assert EnterChain(responder, record, env).record.receiveChain
        == OutboundRecord(initiator, bundle, ratchet, ephemeral).sendChain;
    assert StashAll(record.skipped, Skips(ratchet, EnterChain(responder, record, env).record.receiveChain.value, 0, 0))
        == record.skipped;
  }

  /** Re-establishment: whatever session the responder still holds, the first message of a newly
      set up initiator opens, and the session it leaves is the one a responder without any session
      would have got. */
  lemma SessionReplaced(initiator: Device, self: Peer, responder: Device, bundle: Bundle,
                        ratchet: KeyId, ephemeral: KeyId, content: Content)
    requires bundle.peer !in initiator.sessions && self in responder.sessions
    requires bundle.identity == responder.identity && bundle.signedPrekey == responder.signedPrekey
    requires match bundle.claimed
             case None => 0 !in responder.oneTimePrekeys
             case Some(c) => c.id in responder.oneTimePrekeys && responder.oneTimePrekeys[c.id].key == c.key
    requires var r := responder.sessions[self];   // an established session that has never met the new ratchet key
             && !Has(r.skipped, ratchet, 0) && r.remoteRatchet != Some(ratchet)
             && r.rootKey.RatchetRoot? && r.receiveChain.Some?
    ensures var sent := Send(initiator, bundle, ratchet, ephemeral).value;
            var env := Envelope(self, initiator.identity, sent.header, Box(sent.key, content));
            var without := responder.(sessions := responder.sessions - {self});
            && Decrypt(responder, env).Ok? && Decrypt(without, env).Ok?
            && Decrypt(responder, env).value.content == content
            && Decrypt(responder, env).value.device == Decrypt(without, env).value.device
  {
    var without := responder.(sessions := responder.sessions - {self});
    SessionEstablished(initiator, self, without, bundle, ratchet, ephemeral, content);
    var sent := Send(initiator, bundle, ratchet, ephemeral).value;
    var env := Envelope(self, initiator.identity, sent.header, Box(sent.key, content));
    var r := responder.sessions[self];
    var base := X3dhRoot(InitiatorSegments(initiator.identity, ephemeral, bundle));
    var e := EnterChain(responder, r, env);
    assert e.record.receiveChain == Some(ChainStart(r.rootKey, SharedSecret(r.localRatchet, ratchet)));
    assert sent.key == MessageKey(ChainStart(base, SharedSecret(ratchet, bundle.signedPrekey)));
    assert Attempt(responder, env, false) == Err(OperationError);
    assert ResponderSegments(without, initiator.identity, sent.header.initialSession.value)
        == ResponderSegments(responder, initiator.identity, sent.header.initialSession.value);
    var got := Receive(responder, EmptyRecord(responder), env).value;
    assert got == Receive(without, EmptyRecord(without), env).value;
    assert responder.sessions[self := got.record] == without.sessions[self := got.record];
  }
}
