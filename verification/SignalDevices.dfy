/** The mutable side of the session protocol: a working session whose fields the source
    assigns one by one, and the device that commits a working copy only on success. */
module SignalDevices {
  import opened Options
  import opened KeySchedule
  import opened SkippedKeys
  import opened SignalRecords

  class Session {
    var rootKey: RootKey
    var sendChainKey: Option<ChainKey>
    var receiveChainKey: Option<ChainKey>
    var sendCount: nat
    var receiveCount: nat
    var previousSendCount: nat
    var localRatchetKey: KeyId
    var remoteRatchetKey: Option<KeyId>
    var pendingRatchet: bool
    var skippedKeys: Store

    function Snapshot(): Record
      reads this
    {
      Record(rootKey, sendChainKey, receiveChainKey, sendCount, receiveCount, previousSendCount,
             localRatchetKey, remoteRatchetKey, pendingRatchet, skippedKeys)
    }

    constructor (r: Record)
      ensures Snapshot() == r
    {
      rootKey, sendChainKey, receiveChainKey := r.rootKey, r.sendChain, r.receiveChain;
      sendCount, receiveCount, previousSendCount := r.sendCount, r.receiveCount, r.previousSendCount;
      localRatchetKey, remoteRatchetKey := r.localRatchet, r.remoteRatchet;
      pendingRatchet, skippedKeys := r.pendingRatchet, r.skipped;
    }

    method TakeSkippedMessageKey(ratchetKey: KeyId, number: nat) returns (key: Option<MessageKey>)
      modifies this`skippedKeys
      ensures key == Lookup(old(skippedKeys), ratchetKey, number)
      ensures skippedKeys == Remove(old(skippedKeys), ratchetKey, number)
    {
      var p := Position(skippedKeys, ratchetKey, number);
      if p == |skippedKeys| {
        return None;
      }
      key := Some(skippedKeys[p].key);
      skippedKeys := skippedKeys[..p] + skippedKeys[p + 1..];
    }

    method StashSkippedMessageKey(ratchetKey: KeyId, number: nat, key: MessageKey)
      modifies this`skippedKeys
      ensures skippedKeys == Stash(old(skippedKeys), Entry(ratchetKey, number, key))
      ensures |skippedKeys| <= MAX_SKIPPED
    {
      var next := Assign(skippedKeys, Entry(ratchetKey, number, key));
      ghost var all := next;
      while |next| > MAX_SKIPPED
        invariant |next| <= |all| && next == all[|all| - |next|..]
        invariant |all| >= MAX_SKIPPED ==> |next| >= MAX_SKIPPED
        invariant |all| < MAX_SKIPPED ==> next == all
      {
        next := next[1..];
      }
      skippedKeys := next;
    }

    method RotateSendingRatchet(ratchet: KeyId) returns (ok: bool)
      modifies this
      ensures ok <==> old(remoteRatchetKey).Some?
      ensures ok ==> Snapshot() == Rotated(old(Snapshot()), ratchet)
      ensures !ok ==> Snapshot() == old(Snapshot())
    {
      if remoteRatchetKey.None? {
        return false;
      }
      var (root, chain) := KdfRoot(rootKey, SharedSecret(ratchet, remoteRatchetKey.value));
      rootKey := root;
      sendChainKey := Some(chain);
      previousSendCount := sendCount;
      sendCount := 0;
      localRatchetKey := ratchet;
      pendingRatchet := false;
      ok := true;
    }

    /** Makes the chain of the envelope's ratchet key current. */
    method Enter(d: Device, env: Envelope) returns (oneTimePrekeys: map<nat, OneTimePrekey>)
      modifies this
      ensures Entered(Snapshot(), oneTimePrekeys) == EnterChain(d, old(Snapshot()), env)
    {
      oneTimePrekeys := d.oneTimePrekeys;
      var remote := env.header.ratchetKey;
      if remoteRatchetKey != Some(remote) || receiveChainKey.None? {
        var localPrivateKey := localRatchetKey;
        var rootBase := rootKey;
        if receiveChainKey.None? && env.header.initialSession.Some? {
          var initial := env.header.initialSession.value;
          rootBase := X3dhRoot(ResponderSegments(d, env.senderIdentity, initial));
          oneTimePrekeys := ConsumePrekey(oneTimePrekeys, initial.oneTimePrekeyId);
          localPrivateKey := d.signedPrekey;
        }
        var (root, chain) := KdfRoot(rootBase, SharedSecret(localPrivateKey, remote));
        rootKey := root;
        receiveChainKey := Some(chain);
        receiveCount := 0;
        remoteRatchetKey := Some(remote);
        pendingRatchet := true;
      }
    }

    /** Steps the receive chain up to `target`, stashing every key passed over. */
    method SkipTo(ratchetKey: KeyId, target: nat)
      requires receiveChainKey.Some? && receiveCount <= target
      modifies this`receiveChainKey, this`receiveCount, this`skippedKeys
      ensures receiveCount == target
      ensures receiveChainKey == Some(ChainAt(old(receiveChainKey).value, target - old(receiveCount)))
      ensures skippedKeys == StashAll(old(skippedKeys),
                                      Skips(ratchetKey, old(receiveChainKey).value, old(receiveCount), target))
    {
      hide Stash;
      ghost var start, from := receiveChainKey.value, receiveCount;
      while receiveCount < target
        invariant from <= receiveCount <= target
        invariant receiveChainKey == Some(ChainAt(start, receiveCount - from))
        invariant skippedKeys == StashAll(old(skippedKeys), Skips(ratchetKey, start, from, receiveCount))
        decreases target - receiveCount
      {
        StashAllMore(old(skippedKeys), Skips(ratchetKey, start, from, receiveCount),
                     Entry(ratchetKey, receiveCount, KeyAt(start, receiveCount - from)));
        var (next, key) := KdfChain(receiveChainKey.value);
        StashSkippedMessageKey(ratchetKey, receiveCount, key);
        receiveChainKey := Some(next);
        receiveCount := receiveCount + 1;
      }
    }

    /** The message key for an envelope; on failure the working session is thrown away. */
    method ReceiveKey(d: Device, env: Envelope)
      returns (key: Result<MessageKey>, oneTimePrekeys: map<nat, OneTimePrekey>)
      modifies this
      ensures match Receive(d, old(Snapshot()), env)
              case Err(e) => key == Err(e)
              case Ok(got) => key == Ok(got.key) && oneTimePrekeys == got.oneTimePrekeys && Snapshot() == got.record
    {
      hide StashAll, Skips;
      oneTimePrekeys := d.oneTimePrekeys;
      var target := env.header.messageNumber;
      var taken := TakeSkippedMessageKey(env.header.ratchetKey, target);
      if taken.Some? {
        return Ok(taken.value), oneTimePrekeys;
      }
      oneTimePrekeys := Enter(d, env);
      if target < receiveCount {
        return Err(MissingSkippedKey), oneTimePrekeys;
      }
      SkipTo(env.header.ratchetKey, target);
      var (next, current) := KdfChain(receiveChainKey.value);
      receiveChainKey := Some(next);
      receiveCount := receiveCount + 1;
      key := Ok(current);
    }
  }

  class CryptoDevice {
    const identity: KeyId
    const signedPrekey: KeyId
    var oneTimePrekeys: map<nat, OneTimePrekey>
    var sessions: map<Peer, Record>

    function State(): Device
      reads this
    {
      Device(identity, signedPrekey, oneTimePrekeys, sessions)
    }

    constructor (d: Device)
      ensures State() == d
    {
      identity, signedPrekey, oneTimePrekeys, sessions := d.identity, d.signedPrekey, d.oneTimePrekeys, d.sessions;
    }

    method AdvanceSendingRatchet(bundle: Bundle, ratchet: KeyId, ephemeral: KeyId)
      returns (sent: Result<(Header, MessageKey)>)
      modifies this
      ensures match Send(old(State()), bundle, ratchet, ephemeral)
              case Err(e) => sent == Err(e) && State() == old(State())
              case Ok(s) => sent == Ok((s.header, s.key)) && State() == s.device
    {
      var initial := None;
      var session: Session;
      if bundle.peer !in sessions {
        session := new Session(OutboundRecord(State(), bundle, ratchet, ephemeral));
        initial := Some(InitialHeader(bundle, ephemeral));
      } else {
        session := new Session(sessions[bundle.peer]);
        if session.pendingRatchet || session.sendChainKey.None? {
          var ok := session.RotateSendingRatchet(ratchet);
          if !ok {
            return Err(NoRemoteKey);
          }
        }
      }
      var (next, key) := KdfChain(session.sendChainKey.value);
      var header := Header(session.localRatchetKey, session.previousSendCount, session.sendCount, initial);
      session.sendChainKey := Some(next);
      session.sendCount := session.sendCount + 1;
      sessions := sessions[bundle.peer := session.Snapshot()];
      sent := Ok((header, key));
    }

    /** One attempt on a working copy: nothing of the device changes here. */
    method DecryptWithSession(env: Envelope, useEmptySession: bool) returns (outcome: Result<Opened>)
      ensures outcome == Attempt(State(), env, useEmptySession)
    {
      var session := new Session(if useEmptySession then EmptyRecord(State()) else RecordFor(State(), env.sender));
      var key, prekeys := session.ReceiveKey(State(), env);
      if key.Err? {
        return Err(key.failure);
      }
      if key.value != env.box.key {
        return Err(OperationError);
      }
      var working := State().(oneTimePrekeys := prekeys, sessions := sessions[env.sender := session.Snapshot()]);
      outcome := Ok(Opened(working, env.box.content));
    }

    method DecryptEnvelope(env: Envelope) returns (content: Result<Content>)
      modifies this
      ensures match Decrypt(old(State()), env)
              case Err(e) => content == Err(e) && State() == old(State())
              case Ok(o) => content == Ok(o.content) && State() == o.device
    {
      var outcome := DecryptWithSession(env, false);
      if outcome.Err? {
        if !MayRetry(State(), env, outcome.failure) {
          return Err(outcome.failure);
        }
        outcome := DecryptWithSession(env, true);
        if outcome.Err? {
          return Err(outcome.failure);
        }
      }
      oneTimePrekeys := outcome.value.device.oneTimePrekeys;
      sessions := outcome.value.device.sessions;
      content := Ok(outcome.value.content);
    }
  }
}
