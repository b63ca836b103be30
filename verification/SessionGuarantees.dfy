/** What holds in every world that a run of the two-party protocol can reach, said of the
    devices and the envelopes themselves. */
module SessionGuarantees {
  import opened Options
  import opened KeySchedule
  import opened SkippedKeys
  import opened SignalRecords
  import opened SessionProtocol

  // ---- lockstep ----

  /** `a` has rotated its sending ratchet and `b` has not seen a message of the new chain yet. */
  predicate OneStepAhead(a: Record, b: Record) {
    && a.rootKey == RatchetRoot(b.rootKey, SharedSecret(b.localRatchet, a.localRatchet))
    && a.remoteRatchet == Some(b.localRatchet)
    && !a.pendingRatchet && !b.pendingRatchet
  }

  predicate InLockstep(a: Record, b: Record) {
    || (a.rootKey == b.rootKey && a.pendingRatchet != b.pendingRatchet
        && a.remoteRatchet == Some(b.localRatchet) && b.remoteRatchet == Some(a.localRatchet))
    || OneStepAhead(a, b)
    || OneStepAhead(b, a)
  }

  /** Once the responder has joined, the two roots never drift apart by more than one step. */
  lemma Lockstep(w0: World, steps: seq<Step>, k: nat)
    requires k <= |steps| && IsRun(w0, steps, k)
    ensures var w := After(w0, steps, k);
            InSession(w, Responder) ==>
              InSession(w, Initiator) && InLockstep(SessionOf(w, Initiator), SessionOf(w, Responder))
  {
    var w := After(w0, steps, k);
    var h := RunInv(w0, steps, k);
    if InSession(w, Responder) {
      BothInSession(w, h);
      if OwnerOf(Last(h)) == Initiator {
        ShapesInLockstep(h, Initiator, SessionOf(w, Initiator), SessionOf(w, Responder));
      } else {
        ShapesInLockstep(h, Responder, SessionOf(w, Responder), SessionOf(w, Initiator));
      }
    }
  }

  lemma BothInSession(w: World, h: History)
    requires Inv(w, h) && InSession(w, Responder)
    ensures InSession(w, Initiator) && |h.keys| > 1
    ensures ShapeOk(h, Initiator, SessionOf(w, Initiator)) && ShapeOk(h, Responder, SessionOf(w, Responder))
  {
  }

  /** `p` holds the newest ratchet key. */
  lemma ShapesInLockstep(h: History, p: Party, a: Record, b: Record)
    requires |h.keys| > 1 && OwnerOf(Last(h)) == p
    requires ShapeOk(h, p, a) && ShapeOk(h, Other(p), b)
    ensures InLockstep(a, b)
  {
  }

  // ---- chains ----

  /** The receive chain of `p` is the chain its peer seals on: every envelope of that chain not
      yet reached is sealed with the key the receiver will derive at that distance, and while
      the peer still sends on it, its chain key is that many steps ahead. */
  lemma ChainsAgree(w0: World, steps: seq<Step>, k: nat, p: Party)
    requires k <= |steps| && IsRun(w0, steps, k)
    requires InSession(After(w0, steps, k), p)
    ensures var w := After(w0, steps, k);
            var r := SessionOf(w, p);
            forall i :: 0 <= i < |w.sent| && w.sent[i].from == Other(p)
                        && r.remoteRatchet == Some(w.sent[i].env.header.ratchetKey)
                        && r.receiveCount <= w.sent[i].env.header.messageNumber ==>
              && r.receiveChain.Some?
              && w.sent[i].env.box.key
              == KeyAt(r.receiveChain.value, w.sent[i].env.header.messageNumber - r.receiveCount)
    ensures var w := After(w0, steps, k);
            var r := SessionOf(w, p);
            InSession(w, Other(p)) ==>
              var peer := SessionOf(w, Other(p));
              r.remoteRatchet == Some(peer.localRatchet) && peer.sendChain.Some? ==>
                && r.receiveChain.Some? && r.receiveCount <= peer.sendCount
                && peer.sendChain.value == ChainAt(r.receiveChain.value, peer.sendCount - r.receiveCount)
  {
    hide Inv, KeyAt, ChainAt, StartOf, After, IsRun;
    var w := After(w0, steps, k);
    var h := RunInv(w0, steps, k);
    forall i | 0 <= i < |w.sent| && w.sent[i].from == Other(p)
               && SessionOf(w, p).remoteRatchet == Some(w.sent[i].env.header.ratchetKey)
               && SessionOf(w, p).receiveCount <= w.sent[i].env.header.messageNumber
      ensures SessionOf(w, p).receiveChain.Some?
      ensures w.sent[i].env.box.key
           == KeyAt(SessionOf(w, p).receiveChain.value,
                    w.sent[i].env.header.messageNumber - SessionOf(w, p).receiveCount)
    {
      EnvelopeOnChain(w, h, p, i);
    }
    if InSession(w, Other(p)) && SessionOf(w, p).remoteRatchet == Some(SessionOf(w, Other(p)).localRatchet)
       && SessionOf(w, Other(p)).sendChain.Some? {
      SendersChain(w, h, p);
    }
  }

  lemma EnvelopeOnChain(w: World, h: History, p: Party, i: nat)
    requires Inv(w, h) && InSession(w, p) && i < |w.sent|
    requires SessionOf(w, p).remoteRatchet == Some(w.sent[i].env.header.ratchetKey)
    requires SessionOf(w, p).receiveCount <= w.sent[i].env.header.messageNumber
    ensures SessionOf(w, p).receiveChain.Some?
    ensures w.sent[i].env.box.key
         == KeyAt(SessionOf(w, p).receiveChain.value,
                  w.sent[i].env.header.messageNumber - SessionOf(w, p).receiveCount)
  {
    hide Inv, KeyAt, StartOf, RootOf, ChainAt;
    var r := SessionOf(w, p);
    PartyShape(w, h, p);
    SlotOnChain(w, h, p, i);
    SkipKey(StartOf(h.base, h.keys, At(h, p)), r.receiveCount, h.slots[i].number - r.receiveCount);
  }

  lemma SendersChain(w: World, h: History, p: Party)
    requires Inv(w, h) && InSession(w, p) && InSession(w, Other(p))
    requires SessionOf(w, p).remoteRatchet == Some(SessionOf(w, Other(p)).localRatchet)
    requires SessionOf(w, Other(p)).sendChain.Some?
    ensures var r, peer := SessionOf(w, p), SessionOf(w, Other(p));
            && r.receiveChain.Some? && r.receiveCount <= peer.sendCount
            && peer.sendChain.value == ChainAt(r.receiveChain.value, peer.sendCount - r.receiveCount)
  {
    hide Inv, StartOf, ChainAt, RootOf;
    var r, peer := SessionOf(w, p), SessionOf(w, Other(p));
    PartyShape(w, h, p);
    PartyShape(w, h, Other(p));
    SameKeySameChain(w, h, At(h, p), Own(h, Other(p)));
    ChainAtCompose(StartOf(h.base, h.keys, At(h, p)), r.receiveCount, peer.sendCount - r.receiveCount);
  }

  lemma SameKeySameChain(w: World, h: History, a: nat, b: nat)
    requires Inv(w, h) && a < |h.keys| && b < |h.keys|
    ensures h.keys[a] == h.keys[b] <==> a == b
  {
  }

  /** An envelope under the ratchet key the receiver is on belongs to the chain it is on. */
  lemma SlotOnChain(w: World, h: History, p: Party, i: nat)
    requires Inv(w, h) && InSession(w, p) && i < |w.sent|
    ensures |w.sent| == |h.slots| && |h.keys| == |h.counts| && At(h, p) < |h.keys|
    ensures w.sent[i].env.header.messageNumber == h.slots[i].number
    ensures 0 < h.slots[i].chain < |h.keys| && w.sent[i].env.header.ratchetKey == h.keys[h.slots[i].chain]
    ensures w.sent[i].env.box.key == KeyAt(StartOf(h.base, h.keys, h.slots[i].chain), h.slots[i].number)
    ensures SessionOf(w, p).remoteRatchet == Some(w.sent[i].env.header.ratchetKey) <==> h.slots[i].chain == At(h, p)
  {
  }

  // ---- no key is used twice ----

  /** Over a whole run no two envelopes carry the same header pair or are sealed with the same key. */
  lemma NoKeyReuse(w0: World, steps: seq<Step>, k: nat, i: nat, j: nat)
    requires k <= |steps| && IsRun(w0, steps, k)
    requires i < j < |After(w0, steps, k).sent|
    ensures var a, b := After(w0, steps, k).sent[i].env, After(w0, steps, k).sent[j].env;
            && (a.header.ratchetKey, a.header.messageNumber) != (b.header.ratchetKey, b.header.messageNumber)
            && a.box.key != b.box.key
  {
    hide KeyAt;
    var w := After(w0, steps, k);
    var h := RunInv(w0, steps, k);
    assert FlightOk(h.base, h.keys, h.counts, h.slots[i], w.sent[i]);
    assert FlightOk(h.base, h.keys, h.counts, h.slots[j], w.sent[j]);
    hide FlightOk, NetOk, CacheOk, OpeningOk, PartyOk;
    var a, b := h.slots[i], h.slots[j];
    if w.sent[i].env.header.ratchetKey == w.sent[j].env.header.ratchetKey
       && w.sent[i].env.header.messageNumber == w.sent[j].env.header.messageNumber {
      SameHeader(w, h, i, j);
    }
    if w.sent[i].env.box.key == w.sent[j].env.box.key {
      MessageKeysDiffer(StartOf(h.base, h.keys, a.chain), a.number, StartOf(h.base, h.keys, b.chain), b.number);
      RootGrows(h.base, h.keys, a.chain - 1);
      RootGrows(h.base, h.keys, b.chain - 1);
      SameSlot(w, h, i, j);
    }
  }

  // ---- which envelopes open ----

  /** The receiver has moved to a ratchet key the sender took up only after envelope `i`. */
  predicate Superseded(w: World, i: nat, r: Record)
    requires i < |w.sent|
  {
    && r.remoteRatchet != Some(w.sent[i].env.header.ratchetKey)
    && exists j :: i < j < |w.sent| && w.sent[j].from == w.sent[i].from
                   && r.remoteRatchet == Some(w.sent[j].env.header.ratchetKey)
  }

  /** A condition on the recipient's record: without one, only the opening envelope; with one,
      a stashed key, a message at or past the count of the current chain, or a newer chain. */
  predicate Openable(w: World, i: nat)
    requires i < |w.sent|
  {
    var p, header := Other(w.sent[i].from), w.sent[i].env.header;
    if !InSession(w, p) then header.initialSession.Some?
    else
      var r := SessionOf(w, p);
      || Has(r.skipped, header.ratchetKey, header.messageNumber)
      || if r.remoteRatchet == Some(header.ratchetKey) then header.messageNumber >= r.receiveCount
         else !Superseded(w, i, r)
  }

  lemma SupersededIff(w: World, h: History, i: nat)
    requires Inv(w, h) && i < |w.sent| == |h.slots| && InSession(w, Other(w.sent[i].from))
    ensures Superseded(w, i, SessionOf(w, Other(w.sent[i].from))) <==> h.slots[i].chain < At(h, Other(w.sent[i].from))
  {
    var p := Other(w.sent[i].from);
    var r := SessionOf(w, p);
    PartyShape(w, h, p);
    FlightFacts(w, h, i);
    SlotOnChain(w, h, p, i);
    if h.slots[i].chain < At(h, p) {
      var j := FirstOfChain(w, h, p, i);
      assert Superseded(w, i, r);
    }
    if Superseded(w, i, r) {
      var j :| i < j < |w.sent| && w.sent[j].from == w.sent[i].from
               && r.remoteRatchet == Some(w.sent[j].env.header.ratchetKey);
      FlightFacts(w, h, j);
      SlotOnChain(w, h, p, j);
      InOrder(w, h, i, j);
    }
  }

  lemma InOrder(w: World, h: History, i: nat, j: nat)
    requires Inv(w, h) && i < j < |w.sent| == |h.slots| && OwnerOf(h.slots[i].chain) == OwnerOf(h.slots[j].chain)
    ensures h.slots[i].chain <= h.slots[j].chain
  {
    assert Before(h.slots[i], h.slots[j]);
  }

  /** The envelope that opened the chain the receiver is on now, sent after one of an older chain. */
  lemma FirstOfChain(w: World, h: History, p: Party, i: nat) returns (j: nat)
    requires Inv(w, h) && i < |w.sent| == |h.slots| && InSession(w, p) && w.sent[i].from == Other(p)
    requires h.slots[i].chain < At(h, p)
    ensures i < j < |w.sent| && w.sent[j].from == w.sent[i].from
    ensures SessionOf(w, p).remoteRatchet == Some(w.sent[j].env.header.ratchetKey)
  {
    hide Inv, FlightOk, KeyAt, StartOf;
    PartyShape(w, h, p);
    j := FindSlot(w, h, Slot(At(h, p), 0));
    SlotOnChain(w, h, p, j);
    FlightFacts(w, h, i);
    FlightFacts(w, h, j);
    PeerChain(h, p, SessionOf(w, p));
    if j < i {
      InOrder(w, h, j, i);
    }
  }

  lemma FindSlot(w: World, h: History, s: Slot) returns (j: nat)
    requires Inv(w, h) && InChain(h.counts, s)
    ensures j < |w.sent| == |h.slots| && h.slots[j] == s
  {
    assert s in h.slots;
    j :| 0 <= j < |h.slots| && h.slots[j] == s;
  }

  lemma PeerChain(h: History, p: Party, r: Record)
    requires ShapeOk(h, p, r)
    ensures OwnerOf(At(h, p)) == Other(p)
  {
  }

  /** An envelope the recipient has not opened yet opens if and only if it is `Openable`; then
      the recipient reads what was sealed, and otherwise nothing at all changes. */
  lemma OpensExactly(w0: World, steps: seq<Step>, k: nat, i: nat)
    requires k <= |steps| && IsRun(w0, steps, k)
    requires i < |After(w0, steps, k).sent| && i !in After(w0, steps, k).cached
    ensures var w := After(w0, steps, k);
            var got := Decrypt(DeviceOf(w, Other(w.sent[i].from)), w.sent[i].env);
            && (got.Ok? <==> Openable(w, i))
            && (got.Ok? ==> got.value.content == w.sent[i].env.box.content)
            && (got.Err? ==> Next(w, DeliverStep(i)) == w)
  {
    hide Decrypt, Has;
    var w := After(w0, steps, k);
    var h := RunInv(w0, steps, k);
    var h' := DeliverKeeps(w, h, i);
    var p := Other(w.sent[i].from);
    ContentOpened(DeviceOf(w, p), w.sent[i].env);
    FlightFacts(w, h, i);
    if InSession(w, p) {
      SupersededIff(w, h, i);
      SlotOnChain(w, h, p, i);
    }
    hide Inv, Superseded;
    assert Fits(w, h, i) <==> Openable(w, i);
  }

  lemma ContentOpened(d: Device, env: Envelope)
    ensures Decrypt(d, env).Ok? ==> Decrypt(d, env).value.content == env.box.content
  {
  }

  /** A late message of a superseded chain opens if and only if its key is still stashed. */
  lemma LateMessage(w0: World, steps: seq<Step>, k: nat, i: nat)
    requires k <= |steps| && IsRun(w0, steps, k)
    requires i < |After(w0, steps, k).sent| && i !in After(w0, steps, k).cached
    requires var w := After(w0, steps, k);
             InSession(w, Other(w.sent[i].from)) && Superseded(w, i, SessionOf(w, Other(w.sent[i].from)))
    ensures var w, header := After(w0, steps, k), After(w0, steps, k).sent[i].env.header;
            var r := SessionOf(w, Other(w.sent[i].from));
            Decrypt(DeviceOf(w, Other(w.sent[i].from)), w.sent[i].env).Ok?
            <==> Has(r.skipped, header.ratchetKey, header.messageNumber)
  {
    hide Decrypt, Has;
    OpensExactly(w0, steps, k, i);
  }

  /** An envelope that has been opened and comes again without the plaintext cache opens once
      more only if it carries the session opening and the recipient has left its chain. */
  lemma Redelivery(w0: World, steps: seq<Step>, k: nat, i: nat)
    requires k <= |steps| && IsRun(w0, steps, k)
    requires i in After(w0, steps, k).cached
    ensures var w := After(w0, steps, k);
            && i < |w.sent| && InSession(w, Other(w.sent[i].from))
            && var header, r := w.sent[i].env.header, SessionOf(w, Other(w.sent[i].from));
            Decrypt(DeviceOf(w, Other(w.sent[i].from)), w.sent[i].env).Ok?
            <==> header.initialSession.Some? && r.remoteRatchet != Some(header.ratchetKey)
  {
    hide Decrypt, Has, Receive, Passed, KeyAt, StartOf;
    var w := After(w0, steps, k);
    var h := RunInv(w0, steps, k);
    CachedFacts(w, h, i);
    var p, env := Other(w.sent[i].from), w.sent[i].env;
    var d := DeviceOf(w, p);
    SlotOnChain(w, h, p, i);
    FlightFacts(w, h, i);
    if h.slots[i].chain == At(h, p) {
      CurrentChain(w, h, p, i);
      NoSecondAttempt(d, env);
    } else {
      OldChain(w, h, p, i);
      if env.header.initialSession.Some? {
        OpensFromNothing(w, h, i);
      }
      SecondAttempt(d, env);
    }
  }

  /** A bundle without a one-time prekey, which the server hands out when none is left. */
  function PlainBundle(w: World, p: Party): Bundle {
    Bundle(Name(p), DeviceOf(w, p).identity, DeviceOf(w, p).signedPrekey, 0, None)
  }

  /** Three messages in turn, each delivered before the next is sent. */
  function Exchange(w0: World, keys: seq<KeyId>, content: Content): (steps: seq<Step>)
    requires |keys| == 6
    ensures |steps| == 6
  {
    [SendStep(Initiator, PlainBundle(w0, Responder), keys[0], keys[1], content), DeliverStep(0),
     SendStep(Responder, PlainBundle(w0, Initiator), keys[2], keys[3], content), DeliverStep(1),
     SendStep(Initiator, PlainBundle(w0, Responder), keys[4], keys[5], content), DeliverStep(2)]
  }

  /** The party is in session on the peer's ratchet key, has nothing stashed and may be due to rotate. */
  predicate On(w: World, p: Party, remote: KeyId, pending: bool) {
    && InSession(w, p) && SessionOf(w, p).remoteRatchet == Some(remote)
    && SessionOf(w, p).skipped == [] && SessionOf(w, p).pendingRatchet == pending
  }

  predicate SameKeys(w: World, w': World) {
    forall p :: DeviceOf(w, p).identity == DeviceOf(w', p).identity && DeviceOf(w, p).signedPrekey == DeviceOf(w', p).signedPrekey
  }

  lemma NewChainSent(w: World, p: Party, b: Bundle, ratchet: KeyId, ephemeral: KeyId, content: Content, remote: KeyId)
    requires Enabled(w, SendStep(p, b, ratchet, ephemeral, content))
    requires if InSession(w, p) then On(w, p, remote, true) else remote == b.signedPrekey
    ensures var w' := Next(w, SendStep(p, b, ratchet, ephemeral, content));
            && |w'.sent| == |w.sent| + 1 && w'.sent[..|w.sent|] == w.sent
            && w'.used == w.used + {ratchet, ephemeral} && w'.cached == w.cached
            && On(w', p, remote, false) && DeviceOf(w', Other(p)) == DeviceOf(w, Other(p)) && SameKeys(w, w')
            && var f := w'.sent[|w.sent|];
               && f.from == p && f.env.sender == Name(p) && f.env.header.ratchetKey == ratchet
               && f.env.header.messageNumber == 0 && (f.env.header.initialSession.Some? <==> !InSession(w, p))
  {
  }

  lemma NewChainRead(w: World, i: nat)
    requires Enabled(w, DeliverStep(i)) && w.sent[i].env.sender == Name(w.sent[i].from)
    requires w.sent[i].env.header.messageNumber == 0
    requires var p, key := Other(w.sent[i].from), w.sent[i].env.header.ratchetKey;
             && (InSession(w, p) ==> SessionOf(w, p).skipped == [] && SessionOf(w, p).remoteRatchet != Some(key))
             && Decrypt(DeviceOf(w, p), w.sent[i].env).Ok?
    ensures var w', p := Next(w, DeliverStep(i)), Other(w.sent[i].from);
            && w'.sent == w.sent && w'.used == w.used && w'.cached == w.cached + {i}
            && On(w', p, w.sent[i].env.header.ratchetKey, true)
            && DeviceOf(w', Other(p)) == DeviceOf(w, Other(p)) && SameKeys(w, w')
  {
    var d, env := DeviceOf(w, Other(w.sent[i].from)), w.sent[i].env;
    FirstOfChainRead(d, RecordFor(d, env.sender), env);
    FirstOfChainRead(d, EmptyRecord(d), env);
  }

  lemma FirstOfChainRead(d: Device, r: Record, env: Envelope)
    requires env.header.messageNumber == 0 && r.skipped == [] && r.remoteRatchet != Some(env.header.ratchetKey)
    ensures Receive(d, r, env).Ok?
    ensures var got := Receive(d, r, env).value.record;
            got.remoteRatchet == Some(env.header.ratchetKey) && got.pendingRatchet && got.skipped == []
  {
    var e := EnterChain(d, r, env).record;
    assert StashAll([], Skips(env.header.ratchetKey, e.receiveChain.value, 0, 0)) == [];
  }

  lemma OneMoreStep(w0: World, steps: seq<Step>, k: nat)
    requires k < |steps| && IsRun(w0, steps, k) && Enabled(After(w0, steps, k), steps[k])
    ensures IsRun(w0, steps, k + 1) && After(w0, steps, k + 1) == Next(After(w0, steps, k), steps[k])
  {
  }

  /** The newest envelope opens for a receiver who is not on its chain yet. */
  lemma NewestOpens(w0: World, steps: seq<Step>, k: nat, i: nat)
    requires k <= |steps| && IsRun(w0, steps, k)
    requires |After(w0, steps, k).sent| == i + 1 && i !in After(w0, steps, k).cached
    requires var w := After(w0, steps, k);
             var p, header := Other(w.sent[i].from), w.sent[i].env.header;
             if InSession(w, p) then SessionOf(w, p).remoteRatchet != Some(header.ratchetKey) else header.initialSession.Some?
    ensures var w := After(w0, steps, k); Decrypt(DeviceOf(w, Other(w.sent[i].from)), w.sent[i].env).Ok?
  {
    hide Decrypt, Has, IsRun, After;
    OpensExactly(w0, steps, k, i);
  }

  predicate NewKeys(w0: World, keys: seq<KeyId>) {
    && |keys| == 6
    && forall i :: 0 <= i < 6 ==> keys[i] !in w0.used && forall j :: 0 <= j < i ==> keys[j] != keys[i]
  }

  /** After turn `n` its sender is on the key of the turn before, and its receiver on its own. */
  predicate AfterTurn(w0: World, keys: seq<KeyId>, w: World, n: nat)
    requires |keys| == 6 && n < 3
  {
    var from := if n == 1 then Responder else Initiator;
    && SameKeys(w0, w) && |w.sent| == n + 1 && 0 in w.cached && (forall i :: i in w.cached ==> i <= n)
    && (forall i :: 2 * n + 2 <= i < 6 ==> keys[i] !in w.used)
    && On(w, from, if n == 0 then w0.responder.signedPrekey else keys[2 * n - 2], false)
    && On(w, Other(from), keys[2 * n], true)
    && w.sent[0].from == Initiator && w.sent[0].env.header.initialSession.Some? && w.sent[0].env.header.ratchetKey == keys[0]
  }

  lemma TurnSteps(w0: World, keys: seq<KeyId>, content: Content, n: nat)
    requires |keys| == 6 && n < 3
    ensures var from := if n == 1 then Responder else Initiator;
            && Exchange(w0, keys, content)[2 * n]
               == SendStep(from, PlainBundle(w0, Other(from)), keys[2 * n], keys[2 * n + 1], content)
            && Exchange(w0, keys, content)[2 * n + 1] == DeliverStep(n)
  {
  }

  /** Turn `n` has been sent and not been delivered. */
  predicate Halfway(w0: World, keys: seq<KeyId>, w: World, n: nat)
    requires |keys| == 6 && n < 3
  {
    var from := if n == 1 then Responder else Initiator;
    && SameKeys(w0, w) && |w.sent| == n + 1 && (n > 0 ==> 0 in w.cached) && (forall i :: i in w.cached ==> i < n)
    && (forall i :: 2 * n + 2 <= i < 6 ==> keys[i] !in w.used)
    && On(w, from, if n == 0 then w0.responder.signedPrekey else keys[2 * n - 2], false)
    && (if n == 0 then !InSession(w, Responder)
        else On(w, Other(from), if n == 1 then w0.responder.signedPrekey else keys[0], false))
    && w.sent[0].from == Initiator && w.sent[0].env.header.initialSession.Some? && w.sent[0].env.header.ratchetKey == keys[0]
    && w.sent[n].from == from && w.sent[n].env.sender == Name(from)
    && w.sent[n].env.header.messageNumber == 0 && w.sent[n].env.header.ratchetKey == keys[2 * n]
  }

  lemma TurnSent(w0: World, keys: seq<KeyId>, content: Content, n: nat)
    requires Start(w0) && NewKeys(w0, keys) && n < 3
    requires var steps := Exchange(w0, keys, content);
             && IsRun(w0, steps, 2 * n)
             && (n > 0 ==> AfterTurn(w0, keys, After(w0, steps, 2 * n), n - 1))
    ensures var steps := Exchange(w0, keys, content);
            IsRun(w0, steps, 2 * n + 1) && Halfway(w0, keys, After(w0, steps, 2 * n + 1), n)
  {
    hide IsRun, Next;
    var steps := Exchange(w0, keys, content);
    var w := After(w0, steps, 2 * n);
    assert n == 0 ==> w == w0;
    hide After, Exchange;
    var from := if n == 1 then Responder else Initiator;
    TurnSteps(w0, keys, content, n);
    OneMoreStep(w0, steps, 2 * n);
    NewChainSent(w, from, PlainBundle(w0, Other(from)), keys[2 * n], keys[2 * n + 1], content,
                 if n == 0 then w0.responder.signedPrekey else keys[2 * n - 2]);
  }

  lemma TurnRead(w0: World, keys: seq<KeyId>, content: Content, n: nat)
    requires Start(w0) && NewKeys(w0, keys) && n < 3
    requires var steps := Exchange(w0, keys, content);
             IsRun(w0, steps, 2 * n + 1) && Halfway(w0, keys, After(w0, steps, 2 * n + 1), n)
    ensures var steps := Exchange(w0, keys, content);
            IsRun(w0, steps, 2 * n + 2) && AfterTurn(w0, keys, After(w0, steps, 2 * n + 2), n)
  {
    hide Decrypt, IsRun, Next, After, Exchange;
    var steps := Exchange(w0, keys, content);
    TurnSteps(w0, keys, content, n);
    NewestOpens(w0, steps, 2 * n + 1, n);
    OneMoreStep(w0, steps, 2 * n + 1);
    NewChainRead(After(w0, steps, 2 * n + 1), n);
  }

  lemma NoSteps(w0: World, steps: seq<Step>)
    requires Start(w0)
    ensures IsRun(w0, steps, 0)
  {
  }

  /** A run in which an envelope that has been opened opens again: from every start, with any six new
      keys, the first message once the two have taken one more turn each. */
  lemma OpensAgain(w0: World, keys: seq<KeyId>, content: Content)
    requires Start(w0) && NewKeys(w0, keys)
    ensures var steps := Exchange(w0, keys, content);
            && IsRun(w0, steps, 6)
            && var w := After(w0, steps, 6);
               |w.sent| == 3 && 0 in w.cached && Decrypt(w.responder, w.sent[0].env).Ok?
  {
    hide Decrypt, After, Exchange, IsRun, Halfway;
    var steps := Exchange(w0, keys, content);
    NoSteps(w0, steps);
    TurnSent(w0, keys, content, 0);
    TurnRead(w0, keys, content, 0);
    TurnSent(w0, keys, content, 1);
    TurnRead(w0, keys, content, 1);
    TurnSent(w0, keys, content, 2);
    TurnRead(w0, keys, content, 2);
    Redelivery(w0, steps, 6, 0);
  }

  lemma CachedFacts(w: World, h: History, i: nat)
    requires Inv(w, h) && i in w.cached
    ensures i < |w.sent| == |h.slots|
    ensures InSession(w, Other(w.sent[i].from))
    ensures var p, header := Other(w.sent[i].from), w.sent[i].env.header;
            && !Has(SessionOf(w, p).skipped, header.ratchetKey, header.messageNumber)
            && (h.slots[i].chain < At(h, p)
                || (h.slots[i].chain == At(h, p) && h.slots[i].number < SessionOf(w, p).receiveCount))
  {
    InvParts(w, h);
    var p, header := Other(w.sent[i].from), w.sent[i].env.header;
    hide Inv, Has;
    if Has(SessionOf(w, p).skipped, header.ratchetKey, header.messageNumber) {
      StashedKey(w, h, p, i);
      assert false;
    }
  }

  lemma NoSecondAttempt(d: Device, env: Envelope)
    requires env.sender in d.sessions && Receive(d, d.sessions[env.sender], env) == Err(MissingSkippedKey)
    ensures Decrypt(d, env).Err?
  {
  }

  lemma SecondAttempt(d: Device, env: Envelope)
    requires env.sender in d.sessions && Attempt(d, env, false) == Err(OperationError)
    ensures Decrypt(d, env).Ok? <==> env.header.initialSession.Some? && Attempt(d, env, true).Ok?
  {
  }

  lemma OpensFromNothing(w: World, h: History, i: nat)
    requires Inv(w, h) && i < |w.sent| && w.sent[i].env.header.initialSession.Some?
    ensures w.sent[i].from == Initiator && Attempt(w.responder, w.sent[i].env, true).Ok?
  {
    var d, env, s := w.responder, w.sent[i].env, h.slots[i];
    var r := EmptyRecord(d);
    assert FlightOk(h.base, h.keys, h.counts, s, w.sent[i]) && InitialOk(w.responder, h.base, env);
    var e, start := EnterChain(d, r, env), StartOf(h.base, h.keys, 1);
    assert ChainAt(start, 0) == start;
    assert RootOf(h.base, h.keys, 0) == h.base;
    assert e.record.receiveChain == Some(ChainAt(start, 0)) && e.record.receiveCount == 0;
    ReceiveAhead(d, r, env, start, e);
  }

  /** The record an opening envelope leaves when it is opened from nothing. */
  lemma RecordFromNothing(w: World, h: History, i: nat)
    requires Inv(w, h) && i < |w.sent| && w.sent[i].env.header.initialSession.Some?
    ensures |w.sent| == |h.slots| && |h.keys| == |h.counts| && h.slots[i] == Slot(1, 0) && 1 < |h.keys|
    ensures w.sent[i].env.sender == Name(Initiator) && Attempt(w.responder, w.sent[i].env, true).Ok?
    ensures Name(Initiator) in Attempt(w.responder, w.sent[i].env, true).value.device.sessions
    ensures var r := Attempt(w.responder, w.sent[i].env, true).value.device.sessions[Name(Initiator)];
            && r.rootKey == RootOf(h.base, h.keys, 1) && r.localRatchet == w.responder.signedPrekey
            && r.remoteRatchet == Some(h.keys[1]) && r.receiveCount == 1 && r.skipped == []
            && r.receiveChain == Some(ChainAt(StartOf(h.base, h.keys, 1), 1))
  {
    OpensFromNothing(w, h, i);
    var d, env, s := w.responder, w.sent[i].env, h.slots[i];
    var r := EmptyRecord(d);
    assert FlightOk(h.base, h.keys, h.counts, s, w.sent[i]) && InitialOk(w.responder, h.base, env);
    var e, start := EnterChain(d, r, env), StartOf(h.base, h.keys, 1);
    assert ChainAt(start, 0) == start;
    assert RootOf(h.base, h.keys, 0) == h.base;
    ReceiveAhead(d, r, env, start, e);
  }

  /** With that record only the rest of the first chain opens. */
  lemma ReplacedOpens(w: World, h: History, d: Device, r: Record, j: nat)
    requires Inv(w, h) && j < |w.sent| && w.sent[j].from == Initiator
    requires Name(Initiator) in d.sessions && d.sessions[Name(Initiator)] == r && 1 < |h.keys| == |h.counts|
    requires r.rootKey == RootOf(h.base, h.keys, 1) && r.remoteRatchet == Some(h.keys[1]) && r.receiveCount == 1
    requires r.skipped == [] && r.receiveChain == Some(ChainAt(StartOf(h.base, h.keys, 1), 1))
    ensures Decrypt(d, w.sent[j].env).Ok?
       <==> w.sent[j].env.header.ratchetKey == h.keys[1] && w.sent[j].env.header.messageNumber > 0
  {
    hide Inv, KeyAt, StartOf, RootOf;
    FlightFacts(w, h, j);
    SlotFacts(w, h, j);
    var env, s := w.sent[j].env, h.slots[j];
    var e := EnterChain(d, r, env);
    if s.chain == 1 {
      assert e == Entered(r, d.oneTimePrekeys);
      if s.number > 0 {
        ReceiveAhead(d, r, env, StartOf(h.base, h.keys, 1), e);
      }
    } else {
      var start := ChainStart(r.rootKey, SharedSecret(r.localRatchet, env.header.ratchetKey));
      assert ChainAt(start, 0) == start;
      ReceiveAhead(d, r, env, start, e);
      DeeperRoot(w, h, start, s);
    }
  }

  lemma SlotFacts(w: World, h: History, j: nat)
    requires Inv(w, h) && j < |w.sent|
    ensures |w.sent| == |h.slots| && |h.keys| == |h.counts| && 0 < h.slots[j].chain < |h.keys|
    ensures w.sent[j].env.header.ratchetKey == h.keys[h.slots[j].chain]
    ensures w.sent[j].env.header.messageNumber == h.slots[j].number
    ensures w.sent[j].env.box.key == KeyAt(StartOf(h.base, h.keys, h.slots[j].chain), h.slots[j].number)
    ensures h.keys[h.slots[j].chain] == h.keys[1] <==> h.slots[j].chain == 1
  {
    assert FlightOk(h.base, h.keys, h.counts, h.slots[j], w.sent[j]);
  }

  lemma DeeperRoot(w: World, h: History, start: ChainKey, s: Slot)
    requires Inv(w, h) && 1 < |h.keys| && start.ChainStart? && start.root == RootOf(h.base, h.keys, 1)
    requires 2 < s.chain < |h.keys|
    ensures KeyAt(start, s.number) != KeyAt(StartOf(h.base, h.keys, s.chain), s.number)
  {
    RootGrows(h.base, h.keys, 1);
    RootGrows(h.base, h.keys, s.chain - 1);
    MessageKeysDiffer(start, s.number, StartOf(h.base, h.keys, s.chain), s.number);
  }

  /** What the second opening costs: it puts the session back to the first chain. Afterwards an envelope
      of the initiator opens if and only if it is a later one of that chain, so none on a ratchet key
      taken up since does, whatever was stashed or about to open before. */
  lemma OpenedAgainCosts(w0: World, steps: seq<Step>, k: nat, i: nat, j: nat)
    requires k <= |steps| && IsRun(w0, steps, k) && i in After(w0, steps, k).cached
    requires j < |After(w0, steps, k).sent| && After(w0, steps, k).sent[j].from == Initiator
    requires var w := After(w0, steps, k);
             i < |w.sent| && Decrypt(DeviceOf(w, Other(w.sent[i].from)), w.sent[i].env).Ok?
    ensures var w := After(w0, steps, k);
            var d := Decrypt(DeviceOf(w, Other(w.sent[i].from)), w.sent[i].env).value.device;
            && w.sent[i].from == Initiator
            && (Decrypt(d, w.sent[j].env).Ok?
                <==> w.sent[j].env.header.ratchetKey == w.sent[i].env.header.ratchetKey && w.sent[j].env.header.messageNumber > 0)
  {
    hide Inv, After, IsRun, KeyAt, StartOf, RootOf, Attempt;
    var w := After(w0, steps, k);
    var h := RunInv(w0, steps, k);
    Redelivery(w0, steps, k, i);
    OpensFromNothing(w, h, i);
    SecondTime(w, h, i);
    RecordFromNothing(w, h, i);
    SlotFacts(w, h, i);
    var d := Attempt(w.responder, w.sent[i].env, true).value.device;
    ReplacedOpens(w, h, d, d.sessions[Name(Initiator)], j);
  }

  lemma SecondTime(w: World, h: History, i: nat)
    requires Inv(w, h) && i in w.cached && i < |w.sent| && w.sent[i].from == Initiator && InSession(w, Responder)
    requires SessionOf(w, Responder).remoteRatchet != Some(w.sent[i].env.header.ratchetKey)
    requires w.sent[i].env.header.initialSession.Some?
    ensures Decrypt(w.responder, w.sent[i].env) == Attempt(w.responder, w.sent[i].env, true)
  {
    CachedFacts(w, h, i);
    SlotOnChain(w, h, Responder, i);
    FlightFacts(w, h, i);
    hide Inv, Has, Attempt;
    OldChain(w, h, Responder, i);
  }

  // ---- one-time prekeys ----

  /** The party has opened a session-opening envelope that carries this prekey. */
  predicate OpenedWith(w: World, p: Party, id: nat) {
    exists i :: i in w.cached && i < |w.sent| && w.sent[i].from == Other(p) && Opens(w.sent[i].env, id)
  }

  /** The delivery opens such an envelope now. */
  predicate OpensNow(w: World, s: Step, p: Party, id: nat) {
    && s.DeliverStep? && s.i < |w.sent| && w.sent[s.i].from == Other(p) && Opens(w.sent[s.i].env, id)
    && Decrypt(DeviceOf(w, p), w.sent[s.i].env).Ok?
  }

  predicate PrekeyStays(before: map<nat, OneTimePrekey>, after: map<nat, OneTimePrekey>, id: nat, opens: bool) {
    && (id in before ==> id in after && after[id].key == before[id].key && (after[id].consumed <==> before[id].consumed || opens))
    && (id !in before && id in after ==> !after[id].consumed && !opens)
  }

  lemma DeliveredPrekeys(w: World, h: History, i: nat, p: Party, id: nat)
    requires Inv(w, h) && Enabled(w, DeliverStep(i))
    ensures var s := DeliverStep(i);
            && PrekeyStays(DeviceOf(w, p).oneTimePrekeys, DeviceOf(Next(w, s), p).oneTimePrekeys, id, OpensNow(w, s, p, id))
            && (OpenedWith(Next(w, s), p, id) <==> OpenedWith(w, p, id) || OpensNow(w, s, p, id))
  {
    hide Decrypt, Inv;
    FlightFacts(w, h, i);
    var to := Other(w.sent[i].from);
    if Decrypt(DeviceOf(w, to), w.sent[i].env).Ok? {
      OpeningHeader(w, h, i);
      PrekeysAfterOpening(DeviceOf(w, to), w.sent[i].env);
      var n := Next(w, DeliverStep(i));
      assert n.sent == w.sent && n.cached == w.cached + {i};
    }
  }

  /** A prekey that a session-opening envelope carries is one its recipient has. */
  lemma OpeningPrekey(w: World, h: History, i: nat, id: nat)
    requires Inv(w, h) && i < |w.sent| && Opens(w.sent[i].env, id)
    ensures w.sent[i].from == Initiator && (id == 0 || id in w.responder.oneTimePrekeys)
  {
    hide CacheOk, OpeningOk, PartyOk;
    FlightFrom(w, h, i);
    assert InitialOk(w.responder, h.base, w.sent[i].env);
  }

  lemma FlightFrom(w: World, h: History, i: nat)
    requires Inv(w, h) && i < |w.sent| && w.sent[i].env.header.initialSession.Some?
    ensures w.sent[i].from == Initiator
  {
    FlightFacts(w, h, i);
  }

  /** A session-opening envelope that is still to be opened finds its recipient without a session. */
  lemma OpeningHeader(w: World, h: History, i: nat)
    requires Inv(w, h) && i < |w.sent| && i !in w.cached
    ensures w.sent[i].env.sender == Name(w.sent[i].from)
    ensures w.sent[i].env.header.initialSession.Some? ==> w.sent[i].from == Initiator && !InSession(w, Responder)
    ensures forall id :: Opens(w.sent[i].env, id) ==> id == 0 || id in w.responder.oneTimePrekeys
  {
    hide Inv;
    FlightFacts(w, h, i);
    forall id | Opens(w.sent[i].env, id) ensures id == 0 || id in w.responder.oneTimePrekeys {
      OpeningPrekey(w, h, i, id);
    }
  }

  lemma CarriedPrekeys(w: World, h: History, p: Party, id: nat)
    requires Inv(w, h) && OpenedWith(w, p, id)
    ensures p == Responder && (id == 0 || id in w.responder.oneTimePrekeys)
  {
    hide Inv;
    var i :| i in w.cached && i < |w.sent| && w.sent[i].from == Other(p) && Opens(w.sent[i].env, id);
    OpeningPrekey(w, h, i, id);
  }

  lemma SentKeeps(w: World, s: Step, p: Party)
    requires Enabled(w, s) && s.SendStep?
    ensures DeviceOf(Next(w, s), p).oneTimePrekeys == DeviceOf(w, p).oneTimePrekeys
    ensures Next(w, s).cached == w.cached && w.sent <= Next(w, s).sent
  {
  }

  lemma SentPrekeys(w: World, h: History, s: Step, p: Party, id: nat)
    requires Inv(w, h) && Enabled(w, s) && s.SendStep?
    ensures DeviceOf(Next(w, s), p).oneTimePrekeys == DeviceOf(w, p).oneTimePrekeys
    ensures OpenedWith(Next(w, s), p, id) <==> OpenedWith(w, p, id)
  {
    hide Inv, Next, Opens;
    var n := Next(w, s);
    SentKeeps(w, s, p);
    CachedAreSent(w, h);
    forall i | i in w.cached ensures i < |w.sent| && n.sent[i] == w.sent[i] {
    }
  }

  lemma CachedAreSent(w: World, h: History)
    requires Inv(w, h)
    ensures forall i :: i in w.cached ==> i < |w.sent|
  {
  }

  lemma AnyStepPrekeys(w: World, h: History, s: Step, p: Party, id: nat)
    requires Inv(w, h) && Enabled(w, s)
    ensures PrekeyStays(DeviceOf(w, p).oneTimePrekeys, DeviceOf(Next(w, s), p).oneTimePrekeys, id, OpensNow(w, s, p, id))
    ensures OpenedWith(Next(w, s), p, id) <==> OpenedWith(w, p, id) || OpensNow(w, s, p, id)
  {
    match s
    case SendStep(_, _, _, _, _) => SentPrekeys(w, h, s, p, id);
    case DeliverStep(i) => DeliveredPrekeys(w, h, i, p, id);
    case PrekeyStep(_, _, _) =>
      var n := Next(w, s);
      assert n.sent == w.sent && n.cached == w.cached;
  }

  /** Over every run a one-time prekey is consumed if and only if it was at the start or a session-opening
      envelope that carries it has been opened since; prekeys do not go away and keep their keys. */
  lemma {:induction false} PrekeyConsumed(w0: World, steps: seq<Step>, k: nat, p: Party, id: nat)
    requires k <= |steps| && IsRun(w0, steps, k)
    ensures var before, after := DeviceOf(w0, p).oneTimePrekeys, DeviceOf(After(w0, steps, k), p).oneTimePrekeys;
            && (id in before ==> id in after && after[id].key == before[id].key)
            && (id in after ==>
                  (after[id].consumed <==> (id in before && before[id].consumed) || OpenedWith(After(w0, steps, k), p, id)))
  {
    hide Inv, Next, Enabled, OpenedWith, OpensNow;
    if k == 0 {
      NothingOpened(w0, p, id);
    } else {
      PrekeyConsumed(w0, steps, k - 1, p, id);
      var w, s := After(w0, steps, k - 1), steps[k - 1];
      var h := RunInv(w0, steps, k - 1);
      AnyStepPrekeys(w, h, s, p, id);
      if OpenedWith(w, p, id) {
        CarriedPrekeys(w, h, p, id);
        NoPrekeyZero(w, h, s);
      }
    }
  }

  lemma NoPrekeyZero(w: World, h: History, s: Step)
    requires Inv(w, h) && Enabled(w, s)
    ensures 0 !in Next(w, s).responder.oneTimePrekeys
  {
    var h' := StepKeeps(w, h, s);
  }

  lemma NothingOpened(w: World, p: Party, id: nat)
    requires Start(w)
    ensures !OpenedWith(w, p, id)
  {
  }

  // ---- the store ----

  /** The stash of a reachable session is bounded, has no name twice, and every key in it is the
      one the peer sealed an envelope with that this device has not opened yet. */
  lemma StoreSound(w0: World, steps: seq<Step>, k: nat, p: Party)
    requires k <= |steps| && IsRun(w0, steps, k)
    requires InSession(After(w0, steps, k), p)
    ensures var w := After(w0, steps, k);
            var s := SessionOf(w, p).skipped;
            && |s| <= 64 && Unique(s)
            && forall e :: e in s ==>
                 exists i :: 0 <= i < |w.sent| && i !in w.cached && w.sent[i].from == Other(p)
                             && Names(e, w.sent[i].env.header.ratchetKey, w.sent[i].env.header.messageNumber)
                             && e.key == w.sent[i].env.box.key
  {
    var w := After(w0, steps, k);
    var h := RunInv(w0, steps, k);
    PartyStore(w, h, p);
    hide Inv;
    forall e | e in SessionOf(w, p).skipped
      ensures exists i :: 0 <= i < |w.sent| && i !in w.cached && w.sent[i].from == Other(p)
                          && Names(e, w.sent[i].env.header.ratchetKey, w.sent[i].env.header.messageNumber)
                          && e.key == w.sent[i].env.box.key
    {
      var i :| AwaitedBy(w.sent, w.cached, h, p, SessionOf(w, p), e, i);
    }
  }
}
