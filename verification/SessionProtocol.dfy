/** The two-party protocol: one initiator, one responder, and a network that may delay, reorder,
    drop and repeat envelopes. An envelope that has been opened once is answered from the
    plaintext cache and does not reach the ratchet again. */
module SessionProtocol {
  import opened Options
  import opened KeySchedule
  import opened SkippedKeys
  import opened SignalRecords

  datatype Party = Initiator | Responder

  function Other(p: Party): Party {
    if p == Initiator then Responder else Initiator
  }

  function Name(p: Party): Peer {
    if p == Initiator then "initiator" else "responder"
  }

  datatype Flight = Flight(from: Party, env: Envelope)

  /** `used` holds every key pair generated so far, `sent` every envelope in sending order and
      `cached` the positions of the envelopes whose plaintext the recipient already has. */
  datatype World = World(
    initiator: Device,
    responder: Device,
    used: set<KeyId>,
    sent: seq<Flight>,
    cached: set<nat>)

  function DeviceOf(w: World, p: Party): Device {
    if p == Initiator then w.initiator else w.responder
  }

  function WithDevice(w: World, p: Party, d: Device): World {
    if p == Initiator then w.(initiator := d) else w.(responder := d)
  }

  predicate InSession(w: World, p: Party) {
    Name(Other(p)) in DeviceOf(w, p).sessions
  }

  function SessionOf(w: World, p: Party): Record
    requires InSession(w, p)
  {
    DeviceOf(w, p).sessions[Name(Other(p))]
  }

  /** A bundle the server may hand out for the device of `p`. */
  predicate Published(w: World, p: Party, b: Bundle) {
    var d := DeviceOf(w, p);
    && b.peer == Name(p) && b.identity == d.identity && b.signedPrekey == d.signedPrekey
    && match b.claimed
       case None => true
       case Some(c) => c.id != 0 && c.id in d.oneTimePrekeys && d.oneTimePrekeys[c.id].key == c.key
  }

  datatype Step =
    | SendStep(from: Party, bundle: Bundle, ratchet: KeyId, ephemeral: KeyId, content: Content)
    | DeliverStep(i: nat)
    | PrekeyStep(owner: Party, id: nat, key: KeyId)

  /** Generated keys are new, and only the initiator opens the session. */
  predicate Enabled(w: World, s: Step) {
    match s
    case SendStep(from, bundle, ratchet, ephemeral, _) =>
      && Published(w, Other(from), bundle)
      && ratchet !in w.used && ephemeral !in w.used && ratchet != ephemeral
      && (from == Responder ==> InSession(w, Responder))
    case DeliverStep(i) => i < |w.sent| && i !in w.cached
    case PrekeyStep(owner, id, key) => id != 0 && id !in DeviceOf(w, owner).oneTimePrekeys && key !in w.used
  }

  function Next(w: World, s: Step): World
    requires Enabled(w, s)
  {
    match s
    case SendStep(from, bundle, ratchet, ephemeral, content) =>
      var d := DeviceOf(w, from);
      (match Send(d, bundle, ratchet, ephemeral)
       case Err(_) => w
       case Ok(out) =>
         var env := Envelope(Name(from), d.identity, out.header, Box(out.key, content));
         WithDevice(w, from, out.device).(used := w.used + {ratchet, ephemeral}, sent := w.sent + [Flight(from, env)]))
    case DeliverStep(i) =>
      var to := Other(w.sent[i].from);
      (match Decrypt(DeviceOf(w, to), w.sent[i].env)
       case Err(_) => w
       case Ok(o) => WithDevice(w, to, o.device).(cached := w.cached + {i}))
    case PrekeyStep(owner, id, key) =>
      var d := DeviceOf(w, owner);
      WithDevice(w, owner, d.(oneTimePrekeys := d.oneTimePrekeys[id := OneTimePrekey(key, false)]))
        .(used := w.used + {key})
  }

  predicate Start(w: World) {
    && !InSession(w, Initiator) && !InSession(w, Responder)
    && w.sent == [] && w.cached == {}
    && 0 !in w.responder.oneTimePrekeys && w.responder.signedPrekey in w.used
  }

  predicate IsRun(w0: World, steps: seq<Step>, k: nat)
    requires k <= |steps|
    decreases k
  {
    if k == 0 then Start(w0) else IsRun(w0, steps, k - 1) && Enabled(After(w0, steps, k - 1), steps[k - 1])
  }

  /** The world after the first `k` steps. */
  function After(w0: World, steps: seq<Step>, k: nat): World
    requires k <= |steps|
    decreases k
  {
    if k == 0 then w0
    else
      var w := After(w0, steps, k - 1);
      if Enabled(w, steps[k - 1]) then Next(w, steps[k - 1]) else w
  }

  // ---- the history behind a reachable world ----

  /** Message `number` of the chain opened by ratchet key `chain`. */
  datatype Slot = Slot(chain: nat, number: nat)

  /** All ratchet keys in the order in which they were generated, starting with the responder's
      signed prekey: even ones are the responder's, odd ones the initiator's. Ratchet key c > 0
      opens a sending chain on which `counts[c]` messages have been sent; `slots` places every
      sent envelope; each party has last heard of the other's key `initiatorAt` or `responderAt`. */
  datatype History = History(
    base: RootKey,
    keys: seq<KeyId>,
    counts: seq<nat>,
    slots: seq<Slot>,
    initiatorAt: nat,
    responderAt: nat)

  function OwnerOf(chain: nat): Party {
    if chain % 2 == 1 then Initiator else Responder
  }

  function Last(h: History): int { |h.keys| - 1 }

  /** The newest ratchet key of a party. */
  function Own(h: History, p: Party): int {
    if OwnerOf(|h.keys| + 1) == p then Last(h) else Last(h) - 1
  }

  function At(h: History, p: Party): nat {
    if p == Initiator then h.initiatorAt else h.responderAt
  }

  function RootOf(base: RootKey, keys: seq<KeyId>, n: nat): RootKey
    requires n < |keys|
  {
    if n == 0 then base else RatchetRoot(RootOf(base, keys, n - 1), SharedSecret(keys[n - 1], keys[n]))
  }

  function StartOf(base: RootKey, keys: seq<KeyId>, n: nat): ChainKey
    requires 0 < n < |keys|
  {
    ChainStart(RootOf(base, keys, n - 1), SharedSecret(keys[n - 1], keys[n]))
  }

  lemma {:induction false} RootExtends(base: RootKey, keys: seq<KeyId>, key: KeyId, n: nat)
    requires n < |keys|
    ensures RootOf(base, keys + [key], n) == RootOf(base, keys, n)
    ensures n > 0 ==> StartOf(base, keys + [key], n) == StartOf(base, keys, n)
  {
    if n > 0 {
      RootExtends(base, keys, key, n - 1);
    }
  }

  lemma {:induction false} RootGrows(base: RootKey, keys: seq<KeyId>, n: nat)
    requires n < |keys| && RootDepth(base) == 0
    ensures RootDepth(RootOf(base, keys, n)) == n
  {
    if n > 0 {
      RootGrows(base, keys, n - 1);
    }
  }

  // ---- the invariant ----

  predicate KeysOk(w: World, h: History) {
    && 1 <= |h.keys| == |h.counts|
    && h.keys[0] == w.responder.signedPrekey && h.counts[0] == 0
    && h.base.X3dhRoot?
    && (forall i, j :: 0 <= i < j < |h.keys| ==> h.keys[i] != h.keys[j])
    && (forall i :: 0 <= i < |h.keys| ==> h.keys[i] in w.used)
    && (forall c :: 0 < c < |h.keys| ==> h.counts[c] > 0)
    && 0 !in w.responder.oneTimePrekeys
  }

  predicate InitialOk(responder: Device, base: RootKey, env: Envelope) {
    env.header.initialSession.Some? ==>
      var initial := env.header.initialSession.value;
      && X3dhRoot(ResponderSegments(responder, env.senderIdentity, initial)) == base
      && (initial.oneTimePrekeyId == 0 || initial.oneTimePrekeyId in responder.oneTimePrekeys)
  }

  predicate InChain(counts: seq<nat>, s: Slot) {
    0 < s.chain < |counts| && s.number < counts[s.chain]
  }

  /** The envelope is the message of its slot. */
  predicate FlightOk(base: RootKey, keys: seq<KeyId>, counts: seq<nat>, s: Slot, f: Flight) {
    && InChain(counts, s) && |keys| == |counts|
    && f.from == OwnerOf(s.chain) && f.env.sender == Name(f.from)
    && f.env.header.ratchetKey == keys[s.chain] && f.env.header.messageNumber == s.number
    && f.env.box.key == KeyAt(StartOf(base, keys, s.chain), s.number)
    && (f.env.header.initialSession.Some? <==> s == Slot(1, 0))
  }

  predicate Before(a: Slot, b: Slot) {
    a.chain < b.chain || (a.chain == b.chain && a.number < b.number)
  }

  ghost predicate NetOk(w: World, h: History) {
    && |h.slots| == |w.sent|
    && (forall i :: 0 <= i < |w.sent| ==> FlightOk(h.base, h.keys, h.counts, h.slots[i], w.sent[i]))
    && (forall i :: 0 <= i < |w.sent| ==> InitialOk(w.responder, h.base, w.sent[i].env))
    && (forall i, j :: 0 <= i < j < |h.slots| && OwnerOf(h.slots[i].chain) == OwnerOf(h.slots[j].chain) ==>
          Before(h.slots[i], h.slots[j]))
    && (forall s :: InChain(h.counts, s) ==> s in h.slots)
  }

  /** A slot the receiver has already passed. */
  predicate Passed(h: History, p: Party, r: Record, s: Slot) {
    s.chain < At(h, p) || (s.chain == At(h, p) && s.number < r.receiveCount)
  }

  /** The keys, counts and flags of a session record, in terms of the history. */
  predicate ShapeOk(h: History, p: Party, r: Record) {
    var own, at := Own(h, p), At(h, p);
    && 0 <= own < |h.keys| == |h.counts| && at < |h.keys| && (at == own + 1 || at == own - 1)
    && r.localRatchet == h.keys[own] && r.remoteRatchet == Some(h.keys[at])
    && r.rootKey == RootOf(h.base, h.keys, if own < at then at else own)
    && (r.pendingRatchet <==> own < at)
    && r.sendCount == h.counts[own]
    && r.sendChain == (if own == 0 then None else Some(ChainAt(StartOf(h.base, h.keys, own), h.counts[own])))
    && r.receiveCount <= h.counts[at]
    && r.receiveChain == (if at == 0 then None else Some(ChainAt(StartOf(h.base, h.keys, at), r.receiveCount)))
  }

  /** The stashed key of an envelope that is still on its way to `p`. */
  ghost predicate AwaitedBy(sent: seq<Flight>, cached: set<nat>, h: History, p: Party, r: Record, e: Entry, i: nat) {
    && i < |sent| == |h.slots| && i !in cached && sent[i].from == Other(p)
    && Names(e, sent[i].env.header.ratchetKey, sent[i].env.header.messageNumber)
    && e.key == sent[i].env.box.key
    && Passed(h, p, r, h.slots[i])
  }

  ghost predicate Awaited(sent: seq<Flight>, cached: set<nat>, h: History, p: Party, r: Record, e: Entry) {
    exists i :: AwaitedBy(sent, cached, h, p, r, e, i)
  }

  ghost predicate StoreOk(sent: seq<Flight>, cached: set<nat>, h: History, p: Party, r: Record) {
    && |r.skipped| <= MAX_SKIPPED && Unique(r.skipped)
    && forall e :: e in r.skipped ==> Awaited(sent, cached, h, p, r, e)
  }

  ghost predicate CacheOk(w: World, h: History) {
    forall i :: i in w.cached ==>
      && i < |w.sent| == |h.slots|
      && var p := Other(w.sent[i].from);
      && InSession(w, p) && Passed(h, p, SessionOf(w, p), h.slots[i])
  }

  ghost predicate PartyOk(w: World, h: History, p: Party) {
    InSession(w, p) ==> ShapeOk(h, p, SessionOf(w, p)) && StoreOk(w.sent, w.cached, h, p, SessionOf(w, p))
  }

  /** The session is opened by the initiator's first send and joined by opening that envelope. */
  ghost predicate OpeningOk(w: World, h: History) {
    && (InSession(w, Initiator) <==> |h.keys| > 1)
    && (!InSession(w, Responder) ==> |h.keys| <= 2)
    && (InSession(w, Responder) ==> |h.keys| > 1 && h.responderAt > 0 && Slot(1, 0) in h.slots)
    && (InSession(w, Responder) ==> forall i :: 0 <= i < |h.slots| && h.slots[i] == Slot(1, 0) ==> i in w.cached)
  }

  ghost predicate Inv(w: World, h: History) {
    && KeysOk(w, h) && NetOk(w, h) && CacheOk(w, h) && OpeningOk(w, h)
    && PartyOk(w, h, Initiator) && PartyOk(w, h, Responder)
  }

  lemma StartInv(w: World) returns (h: History)
    requires Start(w)
    ensures Inv(w, h)
  {
    h := History(X3dhRoot([]), [w.responder.signedPrekey], [0], [], 0, 0);
  }

  // ---- delivery ----

  lemma Parities(h: History, p: Party)
    requires |h.keys| > 1
    ensures 0 <= Own(h, p) <= Last(h) <= Own(h, p) + 1
    ensures OwnerOf(Own(h, p)) == p
  {
  }

  /** Two envelopes with the same header are the same envelope. */
  lemma SameHeader(w: World, h: History, i: nat, j: nat)
    requires KeysOk(w, h) && NetOk(w, h) && i < |w.sent| && j < |w.sent|
    requires w.sent[i].env.header.ratchetKey == w.sent[j].env.header.ratchetKey
    requires w.sent[i].env.header.messageNumber == w.sent[j].env.header.messageNumber
    ensures i == j
  {
  }

  lemma SameSlot(w: World, h: History, i: nat, j: nat)
    requires KeysOk(w, h) && NetOk(w, h) && i < |w.sent| && j < |w.sent| && h.slots[i] == h.slots[j]
    ensures i == j
  {
  }

  /** What a stash holds under the name of an envelope is the key of that envelope. */
  lemma StashedKey(w: World, h: History, p: Party, i: nat)
    requires Inv(w, h) && InSession(w, p) && i < |w.sent| && w.sent[i].from == Other(p)
    requires Has(SessionOf(w, p).skipped, w.sent[i].env.header.ratchetKey, w.sent[i].env.header.messageNumber)
    ensures i !in w.cached && Passed(h, p, SessionOf(w, p), h.slots[i])
    ensures Lookup(SessionOf(w, p).skipped, w.sent[i].env.header.ratchetKey, w.sent[i].env.header.messageNumber)
         == Some(w.sent[i].env.box.key)
  {
    var r, header := SessionOf(w, p), w.sent[i].env.header;
    var e := r.skipped[Position(r.skipped, header.ratchetKey, header.messageNumber)];
    assert e in r.skipped && StoreOk(w.sent, w.cached, h, p, r);
    var j :| AwaitedBy(w.sent, w.cached, h, p, r, e, j);
    SameHeader(w, h, i, j);
  }

  /** An older chain: the ratchet step derives a key from a deeper root. */
  lemma OldChain(w: World, h: History, p: Party, i: nat)
    requires Inv(w, h) && InSession(w, p) && i < |w.sent| && w.sent[i].from == Other(p)
    requires h.slots[i].chain < At(h, p)
    requires var header := w.sent[i].env.header;
             !Has(SessionOf(w, p).skipped, header.ratchetKey, header.messageNumber)
    ensures Attempt(DeviceOf(w, p), w.sent[i].env, false) == Err(OperationError)
  {
    var d, r, env, s := DeviceOf(w, p), SessionOf(w, p), w.sent[i].env, h.slots[i];
    assert FlightOk(h.base, h.keys, h.counts, s, w.sent[i]) && ShapeOk(h, p, r);
    var e := EnterChain(d, r, env);
    var own, at := Own(h, p), At(h, p);
    assert r.receiveChain.Some?;
    assert r.remoteRatchet != Some(env.header.ratchetKey);
    var start := ChainStart(r.rootKey, SharedSecret(r.localRatchet, env.header.ratchetKey));
    assert e.record.receiveChain == Some(ChainAt(start, 0)) && e.record.receiveCount == 0;
    ReceiveAhead(d, r, env, start, e);
    RootGrows(h.base, h.keys, if own < at then at else own);
    RootGrows(h.base, h.keys, s.chain - 1);
    MessageKeysDiffer(start, s.number, StartOf(h.base, h.keys, s.chain), s.number);
  }

  /** The current chain, before or after the receiver's count. */
  lemma CurrentChain(w: World, h: History, p: Party, i: nat)
    requires Inv(w, h) && InSession(w, p) && i < |w.sent| && w.sent[i].from == Other(p)
    requires h.slots[i].chain == At(h, p)
    requires var header := w.sent[i].env.header;
             !Has(SessionOf(w, p).skipped, header.ratchetKey, header.messageNumber)
    ensures var d, r, env, s := DeviceOf(w, p), SessionOf(w, p), w.sent[i].env, h.slots[i];
            && 0 < s.chain < |h.keys| && r.receiveChain.Some? && r.remoteRatchet.Some?
            && Receive(d, r, env) == (if s.number < r.receiveCount then Err(MissingSkippedKey)
                                      else Ok(Received(Stepped(r, StartOf(h.base, h.keys, s.chain), s.number),
                                                       d.oneTimePrekeys, env.box.key)))
  {
    var d, r, env, s := DeviceOf(w, p), SessionOf(w, p), w.sent[i].env, h.slots[i];
    assert FlightOk(h.base, h.keys, h.counts, s, w.sent[i]) && ShapeOk(h, p, r);
    assert EnterChain(d, r, env) == Entered(r, d.oneTimePrekeys);
    if s.number >= r.receiveCount {
      ReceiveAhead(d, r, env, StartOf(h.base, h.keys, s.chain), Entered(r, d.oneTimePrekeys));
    }
  }

  /** The record of a receiver that has just entered the newest chain of the peer. */
  function EnteredRecord(h: History, p: Party, r: Record): Record
    requires 0 <= Own(h, p) < |h.keys| - 1
  {
    var c := Own(h, p) + 1;
    r.(rootKey := RootOf(h.base, h.keys, c), receiveChain := Some(StartOf(h.base, h.keys, c)), receiveCount := 0,
       remoteRatchet := Some(h.keys[c]), pendingRatchet := true)
  }

  lemma NewChain(w: World, h: History, p: Party, i: nat)
    requires Inv(w, h) && InSession(w, p) && i < |w.sent| && w.sent[i].from == Other(p)
    requires h.slots[i].chain > At(h, p)
    ensures h.slots[i].chain == Own(h, p) + 1 < |h.keys| && At(h, p) == Own(h, p) - 1
    ensures var d, r, env, s := DeviceOf(w, p), SessionOf(w, p), w.sent[i].env, h.slots[i];
            Receive(d, r, env) == Ok(Received(Stepped(EnteredRecord(h, p, r), StartOf(h.base, h.keys, s.chain), s.number),
                                              d.oneTimePrekeys, env.box.key))
  {
    hide Inv, ShapeOk, FlightOk, EnterChain, StartOf, KeyAt, Stepped, Has;
    FlightFacts(w, h, i);
    var d, r, env, s := DeviceOf(w, p), SessionOf(w, p), w.sent[i].env, h.slots[i];
    NewestPosition(w, h, p, i);
    EnterNewest(h, p, d, r, env);
    NotStashedYet(w, h, p, i);
    var start := StartOf(h.base, h.keys, s.chain);
    assert ChainAt(start, 0) == start;
    ReceiveAhead(d, r, env, start, Entered(EnteredRecord(h, p, r), d.oneTimePrekeys));
  }

  lemma NewestPosition(w: World, h: History, p: Party, i: nat)
    requires Inv(w, h) && InSession(w, p) && i < |w.sent| && w.sent[i].from == Other(p)
    requires h.slots[i].chain > At(h, p)
    ensures h.slots[i].chain == Own(h, p) + 1 < |h.keys| && At(h, p) == Own(h, p) - 1
    ensures ShapeOk(h, p, SessionOf(w, p)) && |h.keys| == |h.counts|
    ensures var env, s := w.sent[i].env, h.slots[i];
            && env.header.ratchetKey == h.keys[s.chain] && env.header.messageNumber == s.number
            && env.header.initialSession.None? && h.keys[s.chain] != h.keys[At(h, p)]
            && env.box.key == KeyAt(StartOf(h.base, h.keys, s.chain), s.number)
  {
    assert FlightOk(h.base, h.keys, h.counts, h.slots[i], w.sent[i]) && PartyOk(w, h, p);
    Parities(h, p);
    hide StartOf, KeyAt, StoreOk;
  }

  lemma NotStashedYet(w: World, h: History, p: Party, i: nat)
    requires Inv(w, h) && InSession(w, p) && i < |w.sent| && w.sent[i].from == Other(p)
    requires !Passed(h, p, SessionOf(w, p), h.slots[i])
    ensures !Has(SessionOf(w, p).skipped, w.sent[i].env.header.ratchetKey, w.sent[i].env.header.messageNumber)
  {
    hide Inv, Has;
    if Has(SessionOf(w, p).skipped, w.sent[i].env.header.ratchetKey, w.sent[i].env.header.messageNumber) {
      StashedKey(w, h, p, i);
      assert false;
    }
  }

  lemma EnterNewest(h: History, p: Party, d: Device, r: Record, env: Envelope)
    requires 0 < |h.keys| && ShapeOk(h, p, r) && At(h, p) == Own(h, p) - 1 && Own(h, p) + 1 < |h.keys|
    requires env.header.ratchetKey == h.keys[Own(h, p) + 1] && h.keys[Own(h, p) + 1] != h.keys[At(h, p)]
    requires env.header.initialSession.None?
    ensures EnterChain(d, r, env) == Entered(EnteredRecord(h, p, r), d.oneTimePrekeys)
  {
  }

  /** The first receive of a responder without a session: only the opening envelope fits. */
  lemma FirstReceive(w: World, h: History, i: nat)
    requires Inv(w, h) && !InSession(w, Responder) && i < |w.sent| && w.sent[i].from == Initiator
    ensures h.slots[i].chain == 1 && |h.keys| == 2
    ensures h.slots[i] != Slot(1, 0) ==> Attempt(w.responder, w.sent[i].env, false) == Err(OperationError)
    ensures h.slots[i] == Slot(1, 0) ==>
              && w.sent[i].env.header.initialSession.Some?
              && Receive(w.responder, EmptyRecord(w.responder), w.sent[i].env)
              == Ok(Received(Stepped(EnteredRecord(h, Responder, EmptyRecord(w.responder)), StartOf(h.base, h.keys, 1), 0),
                             ConsumePrekey(w.responder.oneTimePrekeys,
                                           w.sent[i].env.header.initialSession.value.oneTimePrekeyId),
                             w.sent[i].env.box.key))
  {
    var d, env, s := w.responder, w.sent[i].env, h.slots[i];
    var r := EmptyRecord(d);
    assert FlightOk(h.base, h.keys, h.counts, s, w.sent[i]) && InitialOk(w.responder, h.base, env);
    var e := EnterChain(d, r, env);
    if s == Slot(1, 0) {
      assert e.record == EnteredRecord(h, Responder, r);
      assert ChainAt(StartOf(h.base, h.keys, 1), 0) == StartOf(h.base, h.keys, 1);
      ReceiveAhead(d, r, env, StartOf(h.base, h.keys, 1), e);
    } else {
      var start := ChainStart(NoRoot, SharedSecret(d.signedPrekey, env.header.ratchetKey));
      assert e.record.receiveChain == Some(ChainAt(start, 0));
      ReceiveAhead(d, r, env, start, e);
      MessageKeysDiffer(start, s.number, StartOf(h.base, h.keys, 1), s.number);
    }
  }

  // ---- every delivery keeps the invariant ----

  function WithAt(h: History, p: Party, at: nat): History {
    if p == Initiator then h.(initiatorAt := at) else h.(responderAt := at)
  }

  /** The two prekey tables hold the same key pairs. */
  predicate SamePrekeys(a: map<nat, OneTimePrekey>, b: map<nat, OneTimePrekey>) {
    a.Keys == b.Keys && forall id :: id in a ==> a[id].key == b[id].key
  }

  /** The world after the recipient of envelope `i` has opened it and stored record `r`. */
  function AfterOpening(w: World, i: nat, r: Record, prekeys: map<nat, OneTimePrekey>): World
    requires i < |w.sent|
  {
    var p := Other(w.sent[i].from);
    var d := DeviceOf(w, p);
    WithDevice(w, p, d.(oneTimePrekeys := prekeys, sessions := d.sessions[Name(Other(p)) := r])).(cached := w.cached + {i})
  }

  ghost predicate Progress(w: World, h: History, p: Party, h': History, r': Record) {
    InSession(w, p) ==> forall s :: Passed(h, p, SessionOf(w, p), s) ==> Passed(h', p, r', s)
  }

  lemma InitialStays(d: Device, d': Device, base: RootKey, env: Envelope)
    requires InitialOk(d, base, env)
    requires d'.identity == d.identity && d'.signedPrekey == d.signedPrekey && SamePrekeys(d.oneTimePrekeys, d'.oneTimePrekeys)
    ensures InitialOk(d', base, env)
  {
  }

  lemma OpeningKeepsNet(w: World, h: History, i: nat, r: Record, prekeys: map<nat, OneTimePrekey>, at: nat)
    requires KeysOk(w, h) && NetOk(w, h) && i < |w.sent|
    requires SamePrekeys(DeviceOf(w, Other(w.sent[i].from)).oneTimePrekeys, prekeys)
    ensures var h' := WithAt(h, Other(w.sent[i].from), at);
            KeysOk(AfterOpening(w, i, r, prekeys), h') && NetOk(AfterOpening(w, i, r, prekeys), h')
  {
    hide FlightOk, InitialOk, InChain, Before;
    var w', h' := AfterOpening(w, i, r, prekeys), WithAt(h, Other(w.sent[i].from), at);
    forall j | 0 <= j < |w.sent| ensures InitialOk(w'.responder, h'.base, w'.sent[j].env) {
      InitialStays(w.responder, w'.responder, h.base, w.sent[j].env);
    }
  }

  lemma OpeningKeepsCache(w: World, h: History, i: nat, r: Record, prekeys: map<nat, OneTimePrekey>, at: nat)
    requires CacheOk(w, h) && i < |w.sent| == |h.slots|
    requires var p := Other(w.sent[i].from);
             Progress(w, h, p, WithAt(h, p, at), r) && Passed(WithAt(h, p, at), p, r, h.slots[i])
    ensures CacheOk(AfterOpening(w, i, r, prekeys), WithAt(h, Other(w.sent[i].from), at))
  {
  }

  /** The other party's record and its stash are not concerned. */
  lemma OpeningKeepsOther(w: World, h: History, i: nat, r: Record, prekeys: map<nat, OneTimePrekey>, at: nat)
    requires i < |w.sent| && PartyOk(w, h, w.sent[i].from)
    ensures PartyOk(AfterOpening(w, i, r, prekeys), WithAt(h, Other(w.sent[i].from), at), w.sent[i].from)
  {
    var q := w.sent[i].from;
    var w', h' := AfterOpening(w, i, r, prekeys), WithAt(h, Other(q), at);
    assert InSession(w', q) == InSession(w, q);
    if InSession(w, q) {
      var s := SessionOf(w, q);
      assert SessionOf(w', q) == s;
      assert ShapeOk(h', q, s);
      forall e | e in s.skipped ensures Awaited(w'.sent, w'.cached, h', q, s, e) {
        var j :| AwaitedBy(w.sent, w.cached, h, q, s, e, j);
        assert AwaitedBy(w'.sent, w'.cached, h', q, s, e, j);
      }
    }
  }

  lemma OpeningKeeps(w: World, h: History, i: nat, r: Record, prekeys: map<nat, OneTimePrekey>, at: nat)
    requires Inv(w, h) && i < |w.sent|
    requires var p := Other(w.sent[i].from);
             && SamePrekeys(DeviceOf(w, p).oneTimePrekeys, prekeys)
             && Progress(w, h, p, WithAt(h, p, at), r) && Passed(WithAt(h, p, at), p, r, h.slots[i])
             && ShapeOk(WithAt(h, p, at), p, r)
             && StoreOk(w.sent, w.cached + {i}, WithAt(h, p, at), p, r)
             && (InSession(w, p) || (p == Responder && h.slots[i] == Slot(1, 0)))
    ensures Inv(AfterOpening(w, i, r, prekeys), WithAt(h, Other(w.sent[i].from), at))
  {
    var p := Other(w.sent[i].from);
    var w', h' := AfterOpening(w, i, r, prekeys), WithAt(h, p, at);
    OpeningKeepsNet(w, h, i, r, prekeys, at);
    OpeningKeepsCache(w, h, i, r, prekeys, at);
    OpeningKeepsOther(w, h, i, r, prekeys, at);
    assert PartyOk(w', h', p) && PartyOk(w', h', Other(p));
    OpeningKeepsOpening(w, h, i, r, prekeys, at);
    assert p == Initiator || p == Responder;
  }

  lemma OpeningKeepsOpening(w: World, h: History, i: nat, r: Record, prekeys: map<nat, OneTimePrekey>, at: nat)
    requires KeysOk(w, h) && NetOk(w, h) && OpeningOk(w, h) && i < |w.sent|
    requires var p := Other(w.sent[i].from);
             && ShapeOk(WithAt(h, p, at), p, r)
             && (InSession(w, p) || (p == Responder && h.slots[i] == Slot(1, 0)))
    ensures OpeningOk(AfterOpening(w, i, r, prekeys), WithAt(h, Other(w.sent[i].from), at))
  {
    var p := Other(w.sent[i].from);
    var w', h' := AfterOpening(w, i, r, prekeys), WithAt(h, p, at);
    assert InSession(w', p) && InSession(w', Other(p)) == InSession(w, Other(p));
    assert FlightOk(h.base, h.keys, h.counts, h.slots[i], w.sent[i]);
    assert p == Responder ==> at > 0;
    assert w'.cached == w.cached + {i};
    forall j | InSession(w', Responder) && 0 <= j < |h.slots| && h.slots[j] == Slot(1, 0) ensures j in w'.cached {
      if !InSession(w, Responder) {
        SameSlot(w, h, i, j);
      }
    }
    hide NetOk, KeysOk, FlightOk, ShapeOk, AfterOpening;
  }

  // ---- the stash after a delivery ----

  lemma TakenStoreOk(w: World, h: History, p: Party, i: nat)
    requires Inv(w, h) && InSession(w, p) && i < |w.sent| && w.sent[i].from == Other(p)
    requires var header := w.sent[i].env.header;
             Has(SessionOf(w, p).skipped, header.ratchetKey, header.messageNumber)
    ensures var r, header := SessionOf(w, p), w.sent[i].env.header;
            var r' := r.(skipped := Remove(r.skipped, header.ratchetKey, header.messageNumber));
            StoreOk(w.sent, w.cached + {i}, h, p, r')
  {
    hide Inv, Has, Remove, Unique, Passed;
    var r, header := SessionOf(w, p), w.sent[i].env.header;
    var r' := r.(skipped := Remove(r.skipped, header.ratchetKey, header.messageNumber));
    PartyStore(w, h, p);
    RemoveFacts(r.skipped, header.ratchetKey, header.messageNumber);
    ShapeKept(h, p, r, r');
    forall e | e in r'.skipped ensures Awaited(w.sent, w.cached + {i}, h, p, r', e) {
      assert Awaited(w.sent, w.cached, h, p, r, e);
      var j :| AwaitedBy(w.sent, w.cached, h, p, r, e, j);
      assert AwaitedBy(w.sent, w.cached + {i}, h, p, r', e, j);
    }
  }

  lemma PartyStore(w: World, h: History, p: Party)
    requires Inv(w, h) && InSession(w, p)
    ensures StoreOk(w.sent, w.cached, h, p, SessionOf(w, p))
  {
  }

  /** A key the skip loop passes over belongs to an envelope still on its way. */
  lemma SkippedAwaited(w: World, h: History, p: Party, i: nat, m: nat) returns (j: nat)
    requires Inv(w, h) && InSession(w, p) && i < |w.sent| && w.sent[i].from == Other(p)
    requires var s := h.slots[i];
             m < s.number && !Passed(h, p, SessionOf(w, p), Slot(s.chain, m))
    ensures j < |w.sent| == |h.slots| && j !in w.cached && j != i && h.slots[j] == Slot(h.slots[i].chain, m)
    ensures 0 < h.slots[i].chain < |h.keys| && w.sent[j].from == Other(p)
    ensures Names(Entry(h.keys[h.slots[i].chain], m, KeyAt(StartOf(h.base, h.keys, h.slots[i].chain), m)),
                  w.sent[j].env.header.ratchetKey, w.sent[j].env.header.messageNumber)
    ensures w.sent[j].env.box.key == KeyAt(StartOf(h.base, h.keys, h.slots[i].chain), m)
  {
    var s := Slot(h.slots[i].chain, m);
    assert FlightOk(h.base, h.keys, h.counts, h.slots[i], w.sent[i]);
    assert InChain(h.counts, s);
    assert s in h.slots;
    j :| 0 <= j < |h.slots| && h.slots[j] == s;
    assert FlightOk(h.base, h.keys, h.counts, h.slots[j], w.sent[j]);
  }

  /** The keys stashed by one delivery: all awaited, none under a name already in the store. */
  lemma SkipsAwaited(w: World, h: History, p: Party, i: nat, chain: ChainKey, from: nat, e: Entry) returns (j: nat)
    requires Inv(w, h) && InSession(w, p) && i < |w.sent| == |h.slots| && w.sent[i].from == Other(p)
    requires 0 < h.slots[i].chain < |h.keys| && from <= h.slots[i].number
    requires chain == ChainAt(StartOf(h.base, h.keys, h.slots[i].chain), from)
    requires forall m :: from <= m ==> !Passed(h, p, SessionOf(w, p), Slot(h.slots[i].chain, m))
    requires e in Skips(h.keys[h.slots[i].chain], chain, from, h.slots[i].number)
    ensures j < |w.sent| == |h.slots| && j !in w.cached && j != i && w.sent[j].from == Other(p)
    ensures h.slots[j].chain == h.slots[i].chain && h.slots[j].number < h.slots[i].number
    ensures Names(e, w.sent[j].env.header.ratchetKey, w.sent[j].env.header.messageNumber)
    ensures e.key == w.sent[j].env.box.key
    ensures !Passed(h, p, SessionOf(w, p), h.slots[j])
  {
    hide Inv, Passed, StartOf, KeyAt;
    var c, n := h.slots[i].chain, h.slots[i].number;
    var skips := Skips(h.keys[c], chain, from, n);
    SkipsEntries(h.keys[c], chain, from, n);
    var k :| 0 <= k < |skips| && skips[k] == e;
    SkipKey(StartOf(h.base, h.keys, c), from, k);
    j := SkippedAwaited(w, h, p, i, from + k);
  }

  lemma SkipKey(start: ChainKey, from: nat, k: nat)
    ensures KeyAt(ChainAt(start, from), k) == KeyAt(start, from + k)
  {
    ChainAtCompose(start, from, k);
  }

  /** The names of awaited keys that have and have not been passed differ. */
  lemma NewName(w: World, h: History, p: Party, j: nat, e: Entry, f: Entry)
    requires KeysOk(w, h) && NetOk(w, h) && j < |w.sent|
    requires InSession(w, p) && StoreOk(w.sent, w.cached, h, p, SessionOf(w, p)) && !Passed(h, p, SessionOf(w, p), h.slots[j])
    requires Names(e, w.sent[j].env.header.ratchetKey, w.sent[j].env.header.messageNumber)
    requires f in SessionOf(w, p).skipped
    ensures !Names(e, f.ratchetKey, f.number)
  {
  }

  lemma SteppedStoreOk(w: World, h: History, p: Party, i: nat, r0: Record, h': History)
    requires Inv(w, h) && InSession(w, p) && i < |w.sent| && w.sent[i].from == Other(p)
    requires 0 < h.slots[i].chain < |h.keys| && h' == WithAt(h, p, h.slots[i].chain)
    requires r0.skipped == SessionOf(w, p).skipped && r0.receiveCount <= h.slots[i].number
    requires r0.remoteRatchet == Some(h.keys[h.slots[i].chain])
    requires r0.receiveChain == Some(ChainAt(StartOf(h.base, h.keys, h.slots[i].chain), r0.receiveCount))
    requires forall m :: r0.receiveCount <= m ==> !Passed(h, p, SessionOf(w, p), Slot(h.slots[i].chain, m))
    requires Progress(w, h, p, h', Stepped(r0, StartOf(h.base, h.keys, h.slots[i].chain), h.slots[i].number))
    ensures StoreOk(w.sent, w.cached + {i}, h', p,
                    Stepped(r0, StartOf(h.base, h.keys, h.slots[i].chain), h.slots[i].number))
  {
    hide Inv, Stepped, StashAll, Skips, StartOf, KeyAt, Awaited, Passed, Unique, Progress;
    FlightFacts(w, h, i);
    var r, c, n := SessionOf(w, p), h.slots[i].chain, h.slots[i].number;
    var chain := r0.receiveChain.value;
    var r' := Stepped(r0, StartOf(h.base, h.keys, c), n);
    var skips := Skips(h.keys[c], chain, r0.receiveCount, n);
    SteppedFields(r0, StartOf(h.base, h.keys, c), n);
    PartyStore(w, h, p);
    assert !Passed(h, p, r, Slot(c, n));
    forall e | e in skips
      ensures Awaited(w.sent, w.cached + {i}, h', p, r', e)
      ensures forall f :: f in r.skipped ==> !Names(e, f.ratchetKey, f.number)
    {
      var j := SkipsAwaited(w, h, p, i, chain, r0.receiveCount, e);
      AwaitedNow(w, h, h', p, i, j, r', e);
      forall f | f in r.skipped ensures !Names(e, f.ratchetKey, f.number) {
        InvParts(w, h);
        NewName(w, h, p, j, e, f);
      }
    }
    forall e | e in r.skipped ensures Awaited(w.sent, w.cached + {i}, h', p, r', e) {
      StillAwaited(w, h, h', p, i, r', e);
    }
    SkipsUnique(h.keys[c], chain, r0.receiveCount, n);
    StashedAreOldOrNew(r.skipped, skips);
  }

  lemma SteppedFields(r: Record, start: ChainKey, n: nat)
    requires r.receiveChain.Some? && r.remoteRatchet.Some? && r.receiveCount <= n
    ensures Stepped(r, start, n).receiveCount == n + 1
    ensures Stepped(r, start, n).skipped
         == StashAll(r.skipped, Skips(r.remoteRatchet.value, r.receiveChain.value, r.receiveCount, n))
  {
  }

  lemma AwaitedNow(w: World, h: History, h': History, p: Party, i: nat, j: nat, r': Record, e: Entry)
    requires i < |w.sent| == |h.slots| && h' == WithAt(h, p, h.slots[i].chain)
    requires j < |w.sent| && j !in w.cached && j != i && w.sent[j].from == Other(p)
    requires h.slots[j].chain == h.slots[i].chain && h.slots[j].number < r'.receiveCount
    requires Names(e, w.sent[j].env.header.ratchetKey, w.sent[j].env.header.messageNumber)
    requires e.key == w.sent[j].env.box.key
    ensures Awaited(w.sent, w.cached + {i}, h', p, r', e)
  {
    assert AwaitedBy(w.sent, w.cached + {i}, h', p, r', e, j);
  }

  lemma StillAwaited(w: World, h: History, h': History, p: Party, i: nat, r': Record, e: Entry)
    requires InSession(w, p) && Awaited(w.sent, w.cached, h, p, SessionOf(w, p), e)
    requires i < |h.slots| && h'.slots == h.slots && !Passed(h, p, SessionOf(w, p), h.slots[i])
    requires Progress(w, h, p, h', r')
    ensures Awaited(w.sent, w.cached + {i}, h', p, r', e)
  {
    var j :| AwaitedBy(w.sent, w.cached, h, p, SessionOf(w, p), e, j);
    assert AwaitedBy(w.sent, w.cached + {i}, h', p, r', e, j);
  }

  lemma InvParts(w: World, h: History)
    requires Inv(w, h)
    ensures KeysOk(w, h) && NetOk(w, h) && CacheOk(w, h) && OpeningOk(w, h)
    ensures PartyOk(w, h, Initiator) && PartyOk(w, h, Responder)
  {
  }

  lemma SkipsUnique(ratchetKey: KeyId, chain: ChainKey, from: nat, target: nat)
    requires from <= target
    ensures Unique(Skips(ratchetKey, chain, from, target))
  {
    SkipsEntries(ratchetKey, chain, from, target);
  }

  lemma StashedAreOldOrNew(s: Store, es: Store)
    requires |s| <= MAX_SKIPPED && Unique(s) && Unique(es)
    requires forall e, f :: e in es && f in s ==> !Names(e, f.ratchetKey, f.number)
    ensures |StashAll(s, es)| <= MAX_SKIPPED && Unique(StashAll(s, es))
    ensures forall e :: e in StashAll(s, es) ==> e in s || e in es
  {
    var all := s + es;
    assert Unique(all) by {
      forall i, j | 0 <= i < j < |all| ensures !Names(all[j], all[i].ratchetKey, all[i].number) {
        if i < |s| <= j {
          assert all[i] in s && all[j] in es;
        }
      }
    }
    StashAllNewest(s, es);
    var r := Newest(all);
    assert forall i :: 0 <= i < |r| ==> r[i] == all[|all| - |r| + i];
  }

  // ---- delivering ----

  /** Opening an envelope with the key that sealed it stores the record that goes with the key. */
  lemma Opening(w: World, i: nat, got: Received)
    requires i < |w.sent| && i !in w.cached
    requires var p, env := Other(w.sent[i].from), w.sent[i].env;
             && env.sender == Name(w.sent[i].from) && got.key == env.box.key
             && Receive(DeviceOf(w, p), RecordFor(DeviceOf(w, p), env.sender), env) == Ok(got)
    ensures Next(w, DeliverStep(i)) == AfterOpening(w, i, got.record, got.oneTimePrekeys)
    ensures Decrypt(DeviceOf(w, Other(w.sent[i].from)), w.sent[i].env).Ok?
    ensures Decrypt(DeviceOf(w, Other(w.sent[i].from)), w.sent[i].env).value.content == w.sent[i].env.box.content
  {
    hide Receive;
  }

  /** Whether the recipient of envelope `i` can open it, in terms of the history. */
  predicate Fits(w: World, h: History, i: nat)
    requires i < |w.sent| == |h.slots|
  {
    var p, header, s := Other(w.sent[i].from), w.sent[i].env.header, h.slots[i];
    if !InSession(w, p) then s == Slot(1, 0)
    else
      || !Passed(h, p, SessionOf(w, p), s)
      || Has(SessionOf(w, p).skipped, header.ratchetKey, header.messageNumber)
  }

  lemma StashedDelivery(w: World, h: History, i: nat)
    requires Inv(w, h) && i < |w.sent| && i !in w.cached
    requires var p, header := Other(w.sent[i].from), w.sent[i].env.header;
             InSession(w, p) && Has(SessionOf(w, p).skipped, header.ratchetKey, header.messageNumber)
    ensures Decrypt(DeviceOf(w, Other(w.sent[i].from)), w.sent[i].env).Ok?
    ensures Inv(Next(w, DeliverStep(i)), h)
  {
    hide Inv, Remove, Has, FlightOk, Passed, StoreOk, ShapeOk, Receive;
    var p, env := Other(w.sent[i].from), w.sent[i].env;
    var d, r := DeviceOf(w, p), SessionOf(w, p);
    var r' := r.(skipped := Remove(r.skipped, env.header.ratchetKey, env.header.messageNumber));
    FlightFacts(w, h, i);
    PartyShape(w, h, p);
    StashedKey(w, h, p, i);
    TakenStoreOk(w, h, p, i);
    ShapeKept(h, p, r, r');
    TakenReceive(d, r, env);
    Opening(w, i, Received(r', d.oneTimePrekeys, env.box.key));
    assert WithAt(h, p, At(h, p)) == h;
    OpeningKeeps(w, h, i, r', d.oneTimePrekeys, At(h, p));
  }

  lemma TakenReceive(d: Device, r: Record, env: Envelope)
    requires Lookup(r.skipped, env.header.ratchetKey, env.header.messageNumber) == Some(env.box.key)
    ensures Receive(d, r, env)
         == Ok(Received(r.(skipped := Remove(r.skipped, env.header.ratchetKey, env.header.messageNumber)),
                        d.oneTimePrekeys, env.box.key))
  {
  }

  lemma ShapeKept(h: History, p: Party, r: Record, r': Record)
    requires r' == r.(skipped := r'.skipped)
    ensures ShapeOk(h, p, r') == ShapeOk(h, p, r)
    ensures forall s :: Passed(h, p, r', s) == Passed(h, p, r, s)
  {
  }

  lemma AheadDelivery(w: World, h: History, i: nat)
    requires Inv(w, h) && i < |w.sent| && i !in w.cached
    requires var p := Other(w.sent[i].from);
             && InSession(w, p) && !Passed(h, p, SessionOf(w, p), h.slots[i]) && h.slots[i].chain == At(h, p)
    ensures Decrypt(DeviceOf(w, Other(w.sent[i].from)), w.sent[i].env).Ok?
    ensures Inv(Next(w, DeliverStep(i)), h)
  {
    var p, env, c, n := Other(w.sent[i].from), w.sent[i].env, h.slots[i].chain, h.slots[i].number;
    var d, r := DeviceOf(w, p), SessionOf(w, p);
    assert FlightOk(h.base, h.keys, h.counts, h.slots[i], w.sent[i]) && ShapeOk(h, p, r);
    NotStashedYet(w, h, p, i);
    CurrentChain(w, h, p, i);
    var r' := Stepped(r, StartOf(h.base, h.keys, c), n);
    assert WithAt(h, p, c) == h;
    assert ShapeOk(h, p, r') && Passed(h, p, r', h.slots[i]);
    assert Progress(w, h, p, h, r');
    hide Inv, FlightOk, ShapeOk, Stepped, StartOf, KeyAt, Has;
    SteppedStoreOk(w, h, p, i, r, h);
    Opening(w, i, Received(r', d.oneTimePrekeys, env.box.key));
    OpeningKeeps(w, h, i, r', d.oneTimePrekeys, c);
  }

  lemma NewChainDelivery(w: World, h: History, i: nat)
    requires Inv(w, h) && i < |w.sent| && i !in w.cached
    requires InSession(w, Other(w.sent[i].from)) && h.slots[i].chain > At(h, Other(w.sent[i].from))
    ensures Decrypt(DeviceOf(w, Other(w.sent[i].from)), w.sent[i].env).Ok?
    ensures Inv(Next(w, DeliverStep(i)), WithAt(h, Other(w.sent[i].from), h.slots[i].chain))
  {
    hide Inv, FlightOk, ShapeOk, Stepped, StartOf, KeyAt, EnteredRecord, Passed, StoreOk;
    FlightFacts(w, h, i);
    var p, env, c, n := Other(w.sent[i].from), w.sent[i].env, h.slots[i].chain, h.slots[i].number;
    var d, r := DeviceOf(w, p), SessionOf(w, p);
    PartyShape(w, h, p);
    NewChain(w, h, p, i);
    NewerNotPassed(h, p, r, c);
    EnteredShape(w, h, p, r, n);
    var h', start := WithAt(h, p, c), StartOf(h.base, h.keys, c);
    var r0 := EnteredRecord(h, p, r);
    var r' := Stepped(r0, start, n);
    SteppedStoreOk(w, h, p, i, r0, h');
    Opening(w, i, Received(r', d.oneTimePrekeys, env.box.key));
    OpeningKeeps(w, h, i, r', d.oneTimePrekeys, c);
  }

  lemma NewerNotPassed(h: History, p: Party, r: Record, c: nat)
    requires c > At(h, p)
    ensures forall m: nat :: !Passed(h, p, r, Slot(c, m))
  {
  }

  lemma FlightFacts(w: World, h: History, i: nat)
    requires Inv(w, h) && i < |w.sent|
    ensures |w.sent| == |h.slots| && |h.keys| == |h.counts|
    ensures w.sent[i].env.sender == Name(w.sent[i].from)
    ensures 0 < h.slots[i].chain < |h.keys| && h.slots[i].number < h.counts[h.slots[i].chain]
    ensures w.sent[i].env.header.initialSession.Some? <==> h.slots[i] == Slot(1, 0)
    ensures w.sent[i].from == OwnerOf(h.slots[i].chain)
    ensures w.sent[i].from == Responder ==> InSession(w, Initiator)
    ensures h.slots[i] == Slot(1, 0) && InSession(w, Responder) ==> i in w.cached
  {
  }

  lemma EnteredShape(w: World, h: History, p: Party, r: Record, n: nat)
    requires InSession(w, p) && r == SessionOf(w, p)
    requires ShapeOk(h, p, r) && At(h, p) == Own(h, p) - 1 && Own(h, p) + 1 < |h.keys|
    requires n < h.counts[Own(h, p) + 1]
    ensures var c, r0 := Own(h, p) + 1, EnteredRecord(h, p, r);
            && r0.receiveChain == Some(ChainAt(StartOf(h.base, h.keys, c), r0.receiveCount))
            && r0.remoteRatchet == Some(h.keys[c]) && r0.receiveCount == 0 && r0.skipped == r.skipped
    ensures var c := Own(h, p) + 1;
            var h', r' := WithAt(h, p, c), Stepped(EnteredRecord(h, p, r), StartOf(h.base, h.keys, c), n);
            && ShapeOk(h', p, r') && Progress(w, h, p, h', r') && Passed(h', p, r', Slot(c, n))
  {
    hide StartOf, RootOf, StashAll, Skips;
    var c := Own(h, p) + 1;
    var h' := WithAt(h, p, c);
    assert Own(h', p) == Own(h, p) && At(h', p) == c;
  }

  lemma FirstDelivery(w: World, h: History, i: nat)
    requires Inv(w, h) && i < |w.sent| && i !in w.cached
    requires w.sent[i].from == Initiator && !InSession(w, Responder) && h.slots[i] == Slot(1, 0)
    ensures Decrypt(w.responder, w.sent[i].env).Ok?
    ensures Inv(Next(w, DeliverStep(i)), WithAt(h, Responder, 1))
  {
    var d, env := w.responder, w.sent[i].env;
    assert FlightOk(h.base, h.keys, h.counts, h.slots[i], w.sent[i]);
    FirstReceive(w, h, i);
    var h', start := WithAt(h, Responder, 1), StartOf(h.base, h.keys, 1);
    var r' := Stepped(EnteredRecord(h, Responder, EmptyRecord(d)), start, 0);
    assert r'.skipped == [];
    assert ShapeOk(h', Responder, r');
    assert StoreOk(w.sent, w.cached + {i}, h', Responder, r');
    assert Passed(h', Responder, r', h.slots[i]);
    var prekeys := ConsumePrekey(d.oneTimePrekeys, env.header.initialSession.value.oneTimePrekeyId);
    assert SamePrekeys(d.oneTimePrekeys, prekeys);
    hide FlightOk, ShapeOk, StoreOk, Stepped, StartOf, KeyAt, ConsumePrekey, SamePrekeys;
    Opening(w, i, Received(r', prekeys, env.box.key));
    OpeningKeeps(w, h, i, r', prekeys, 1);
  }

  /** An envelope that does not fit fails, with no second attempt, and leaves the world alone. */
  lemma FailedDelivery(w: World, h: History, i: nat)
    requires Inv(w, h) && i < |w.sent| && i !in w.cached && !Fits(w, h, i)
    ensures Decrypt(DeviceOf(w, Other(w.sent[i].from)), w.sent[i].env).Err?
    ensures Next(w, DeliverStep(i)) == w
  {
    hide Inv, FlightOk, Receive;
    var p, env := Other(w.sent[i].from), w.sent[i].env;
    FlightFacts(w, h, i);
    if !InSession(w, p) {
      FirstReceive(w, h, i);
    } else if h.slots[i].chain == At(h, p) {
      CurrentChain(w, h, p, i);
    } else {
      OldChain(w, h, p, i);
    }
  }

  lemma DeliverKeeps(w: World, h: History, i: nat) returns (h': History)
    requires Inv(w, h) && i < |w.sent| && i !in w.cached
    ensures |w.sent| == |h.slots|
    ensures Inv(Next(w, DeliverStep(i)), h')
    ensures Decrypt(DeviceOf(w, Other(w.sent[i].from)), w.sent[i].env).Ok? <==> Fits(w, h, i)
  {
    var p, header := Other(w.sent[i].from), w.sent[i].env.header;
    assert |w.sent| == |h.slots|;
    h' := h;
    if !Fits(w, h, i) {
      FailedDelivery(w, h, i);
    } else if !InSession(w, p) {
      assert InSession(w, Initiator) by {
        assert FlightOk(h.base, h.keys, h.counts, h.slots[i], w.sent[i]);
      }
      FirstDelivery(w, h, i);
      h' := WithAt(h, Responder, 1);
    } else if Has(SessionOf(w, p).skipped, header.ratchetKey, header.messageNumber) {
      StashedDelivery(w, h, i);
    } else if h.slots[i].chain == At(h, p) {
      AheadDelivery(w, h, i);
    } else {
      NewChainDelivery(w, h, i);
      h' := WithAt(h, p, h.slots[i].chain);
    }
  }

  // ---- sending ----

  /** The history after one more message: on a new chain when `key` is given, else on chain `own`. */
  function Grown(h: History, key: Option<KeyId>, own: nat): History
    requires own < |h.counts|
  {
    match key
    case Some(k) => h.(keys := h.keys + [k], counts := h.counts + [1], slots := h.slots + [Slot(|h.keys|, 0)])
    case None => h.(counts := h.counts[own := h.counts[own] + 1], slots := h.slots + [Slot(own, h.counts[own])])
  }

  lemma FlightStays(h: History, key: Option<KeyId>, own: nat, s: Slot, f: Flight)
    requires own < |h.counts| && FlightOk(h.base, h.keys, h.counts, s, f)
    ensures var h' := Grown(h, key, own); FlightOk(h'.base, h'.keys, h'.counts, s, f)
  {
    if key.Some? {
      RootExtends(h.base, h.keys, key.value, s.chain);
    }
  }

  lemma NetGrows(w: World, h: History, key: Option<KeyId>, own: nat, f: Flight, w': World)
    requires NetOk(w, h) && |h.keys| == |h.counts| && 0 < |h.keys| && own < |h.counts|
    requires key.None? ==> own > 0
    requires w'.sent == w.sent + [f] && w'.responder.oneTimePrekeys == w.responder.oneTimePrekeys
    requires w'.responder.identity == w.responder.identity && w'.responder.signedPrekey == w.responder.signedPrekey
    requires var h' := Grown(h, key, own);
             FlightOk(h'.base, h'.keys, h'.counts, if key.Some? then Slot(|h.keys|, 0) else Slot(own, h.counts[own]), f)
    requires f.env.header.initialSession.None?
    requires key.None? ==> forall c :: 0 < c < |h.counts| && OwnerOf(c) == OwnerOf(own) ==> c <= own
    ensures NetOk(w', Grown(h, key, own))
  {
    hide FlightOk, InitialOk;
    var h' := Grown(h, key, own);
    var slot := if key.Some? then Slot(|h.keys|, 0) else Slot(own, h.counts[own]);
    forall i | 0 <= i < |w.sent| ensures FlightOk(h'.base, h'.keys, h'.counts, h'.slots[i], w'.sent[i]) {
      FlightStays(h, key, own, h.slots[i], w.sent[i]);
    }
    forall i | 0 <= i < |w.sent| ensures InitialOk(w'.responder, h'.base, w'.sent[i].env) {
      InitialStays(w.responder, w'.responder, h.base, w.sent[i].env);
    }
    NoInitial(w'.responder, h'.base, f.env);
    forall i | 0 <= i < |h.slots| && OwnerOf(h.slots[i].chain) == OwnerOf(slot.chain) ensures Before(h.slots[i], slot) {
      SlotInChain(h, h.slots[i], w.sent[i]);
    }
    SlotsComplete(h, key, own);
  }

  lemma NoInitial(d: Device, base: RootKey, env: Envelope)
    requires env.header.initialSession.None?
    ensures InitialOk(d, base, env)
  {
  }

  lemma SlotInChain(h: History, s: Slot, f: Flight)
    requires FlightOk(h.base, h.keys, h.counts, s, f)
    ensures InChain(h.counts, s)
  {
  }

  lemma SlotsComplete(h: History, key: Option<KeyId>, own: nat)
    requires own < |h.counts| == |h.keys| && (key.None? ==> own > 0)
    requires forall t :: InChain(h.counts, t) ==> t in h.slots
    ensures forall t :: InChain(Grown(h, key, own).counts, t) ==> t in Grown(h, key, own).slots
  {
  }

  lemma AwaitedGrows(w: World, h: History, key: Option<KeyId>, own: nat, f: Flight, p: Party, r: Record, r': Record)
    requires own < |h.counts| && StoreOk(w.sent, w.cached, h, p, r)
    requires r'.skipped == r.skipped && r'.receiveCount == r.receiveCount
    ensures StoreOk(w.sent + [f], w.cached, Grown(h, key, own), p, r')
  {
    var h' := Grown(h, key, own);
    forall e | e in r.skipped ensures Awaited(w.sent + [f], w.cached, h', p, r', e) {
      assert Awaited(w.sent, w.cached, h, p, r, e);
      var i :| AwaitedBy(w.sent, w.cached, h, p, r, e, i);
      assert AwaitedBy(w.sent + [f], w.cached, h', p, r', e, i);
    }
  }

  /** The party that does not send keeps its record. */
  lemma ShapeStays(h: History, key: Option<KeyId>, p: Party, r: Record)
    requires ShapeOk(h, Other(p), r) && 0 <= Own(h, p) < |h.counts| == |h.keys|
    requires key.Some? ==> OwnerOf(|h.keys|) == p
    ensures ShapeOk(Grown(h, key, Own(h, p)), Other(p), r)
  {
    if key.Some? {
      RootExtends(h.base, h.keys, key.value, At(h, Other(p)));
      RootExtends(h.base, h.keys, key.value, Own(h, Other(p)));
    }
  }

  lemma CacheGrows(w: World, h: History, key: Option<KeyId>, own: nat, w': World)
    requires CacheOk(w, h) && own < |h.counts| && |w.sent| == |h.slots| && w'.cached == w.cached
    requires |w'.sent| == |w.sent| + 1 && w'.sent[..|w.sent|] == w.sent
    requires forall p :: InSession(w, p) ==> InSession(w', p) && SessionOf(w', p).receiveCount == SessionOf(w, p).receiveCount
    ensures CacheOk(w', Grown(h, key, own))
  {
  }

  /** The world after `p` has sent `f` and stored record `r`. */
  function AfterSending(w: World, p: Party, r: Record, generated: set<KeyId>, f: Flight): World {
    var d := DeviceOf(w, p);
    WithDevice(w, p, d.(sessions := d.sessions[Name(Other(p)) := r])).(used := w.used + generated, sent := w.sent + [f])
  }

  lemma SendingSessions(w: World, p: Party, r: Record, generated: set<KeyId>, f: Flight)
    ensures var w' := AfterSending(w, p, r, generated, f);
            && InSession(w', p) && SessionOf(w', p) == r
            && InSession(w', Other(p)) == InSession(w, Other(p))
            && (InSession(w, Other(p)) ==> SessionOf(w', Other(p)) == SessionOf(w, Other(p)))
            && (forall q :: InSession(w, q) ==>
                  InSession(w', q) && (q != p || r.receiveCount == SessionOf(w, p).receiveCount ==>
                                       SessionOf(w', q).receiveCount == SessionOf(w, q).receiveCount))
            && w'.sent == w.sent + [f] && w'.cached == w.cached && w'.used == w.used + generated
            && w'.responder.oneTimePrekeys == w.responder.oneTimePrekeys
            && w'.responder.identity == w.responder.identity && w'.responder.signedPrekey == w.responder.signedPrekey
  {
  }

  lemma KeysGrow(w: World, h: History, key: Option<KeyId>, own: nat, w': World)
    requires KeysOk(w, h) && own < |h.keys|
    requires key.None? ==> own > 0
    requires w'.responder.oneTimePrekeys == w.responder.oneTimePrekeys && w'.responder.signedPrekey == w.responder.signedPrekey
    requires w.used <= w'.used
    requires key.Some? ==> key.value !in w.used && key.value in w'.used
    ensures KeysOk(w', Grown(h, key, own))
  {
  }

  /** One more message by `p`, whose record becomes `r'`. */
  lemma SendKeeps(w: World, h: History, key: Option<KeyId>, p: Party, r': Record, generated: set<KeyId>, f: Flight)
    requires Inv(w, h) && InSession(w, p) && 0 <= Own(h, p) < |h.keys|
    requires key.None? ==> Own(h, p) > 0
    requires key.Some? ==> OwnerOf(|h.keys|) == p && key.value in generated && key.value !in w.used
    requires var h' := Grown(h, key, Own(h, p));
             && ShapeOk(h', p, r')
             && FlightOk(h'.base, h'.keys, h'.counts,
                         if key.Some? then Slot(|h.keys|, 0) else Slot(Own(h, p), h.counts[Own(h, p)]), f)
    requires r'.skipped == SessionOf(w, p).skipped && r'.receiveCount == SessionOf(w, p).receiveCount
    requires f.env.header.initialSession.None?
    ensures Inv(AfterSending(w, p, r', generated, f), Grown(h, key, Own(h, p)))
  {
    hide AfterSending, Grown, Inv, KeysOk, NetOk, CacheOk, OpeningOk, ShapeOk, StoreOk, FlightOk, PartyOk, Own, OwnerOf;
    InvParts(w, h);
    BothParties(w, h, p);
    var own := Own(h, p);
    var w', h' := AfterSending(w, p, r', generated, f), Grown(h, key, own);
    SendingSessions(w, p, r', generated, f);
    OwnIsNewest(h, p);
    KeysGrow(w, h, key, own, w');
    NetGrows(w, h, key, own, f, w');
    CacheGrows(w, h, key, own, w');
    OpeningGrows(w, h, key, p, w');
    PartiesGrow(w, h, key, p, r', f, w');
    InvFrom(w', h', p);
  }

  lemma PartiesGrow(w: World, h: History, key: Option<KeyId>, p: Party, r': Record, f: Flight, w': World)
    requires InSession(w, p) && PartyOk(w, h, p) && PartyOk(w, h, Other(p))
    requires 0 <= Own(h, p) < |h.counts| == |h.keys|
    requires key.Some? ==> OwnerOf(|h.keys|) == p
    requires ShapeOk(Grown(h, key, Own(h, p)), p, r')
    requires r'.skipped == SessionOf(w, p).skipped && r'.receiveCount == SessionOf(w, p).receiveCount
    requires InSession(w', p) && SessionOf(w', p) == r' && InSession(w', Other(p)) == InSession(w, Other(p))
    requires InSession(w, Other(p)) ==> SessionOf(w', Other(p)) == SessionOf(w, Other(p))
    requires w'.sent == w.sent + [f] && w'.cached == w.cached
    ensures PartyOk(w', Grown(h, key, Own(h, p)), p) && PartyOk(w', Grown(h, key, Own(h, p)), Other(p))
  {
    hide Grown, ShapeOk, StoreOk, Own;
    var own := Own(h, p);
    AwaitedGrows(w, h, key, own, f, p, SessionOf(w, p), r');
    if InSession(w, Other(p)) {
      ShapeStays(h, key, p, SessionOf(w, Other(p)));
      AwaitedGrows(w, h, key, own, f, Other(p), SessionOf(w, Other(p)), SessionOf(w, Other(p)));
    }
  }

  lemma BothParties(w: World, h: History, p: Party)
    requires Inv(w, h)
    ensures PartyOk(w, h, p) && PartyOk(w, h, Other(p))
    ensures |w.sent| == |h.slots| && |h.keys| == |h.counts|
  {
  }

  lemma InvFrom(w: World, h: History, p: Party)
    requires KeysOk(w, h) && NetOk(w, h) && CacheOk(w, h) && OpeningOk(w, h)
    requires PartyOk(w, h, p) && PartyOk(w, h, Other(p))
    ensures Inv(w, h)
  {
  }

  lemma OwnIsNewest(h: History, p: Party)
    requires 0 <= Own(h, p) < |h.keys| == |h.counts|
    ensures forall c :: 0 < c < |h.counts| && OwnerOf(c) == OwnerOf(Own(h, p)) ==> c <= Own(h, p)
  {
  }

  lemma OpeningGrows(w: World, h: History, key: Option<KeyId>, p: Party, w': World)
    requires KeysOk(w, h) && OpeningOk(w, h) && InSession(w, p) && 0 <= Own(h, p) < |h.keys|
    requires key.None? ==> Own(h, p) > 0
    requires key.Some? ==> OwnerOf(|h.keys|) == p
    requires PartyOk(w, h, p)
    requires w'.cached == w.cached
    requires InSession(w', Initiator) == InSession(w, Initiator) && InSession(w', Responder) == InSession(w, Responder)
    ensures OpeningOk(w', Grown(h, key, Own(h, p)))
  {
  }

  // ---- the three ways of sending ----

  function FlightOf(w: World, p: Party, out: Sent, content: Content): Flight {
    Flight(p, Envelope(Name(p), DeviceOf(w, p).identity, out.header, Box(out.key, content)))
  }

  /** No rotation is due: the message goes on the sender's own chain. */
  lemma SameChainSend(w: World, h: History, p: Party, b: Bundle, ratchet: KeyId, ephemeral: KeyId, content: Content)
    requires Inv(w, h) && InSession(w, p) && b.peer == Name(Other(p)) && !SessionOf(w, p).pendingRatchet
    ensures Send(DeviceOf(w, p), b, ratchet, ephemeral).Ok?
    ensures var out := Send(DeviceOf(w, p), b, ratchet, ephemeral).value;
            && 0 < Own(h, p) < |h.counts|
            && Inv(WithDevice(w, p, out.device).(used := w.used + {ratchet, ephemeral},
                                                 sent := w.sent + [FlightOf(w, p, out, content)]),
                   Grown(h, None, Own(h, p)))
  {
    hide Inv, ShapeOk, FlightOk, AfterSending, Send, Grown;
    var r := SessionOf(w, p);
    PartyShape(w, h, p);
    SameChainResult(w, h, p, b, ratchet, ephemeral, content);
    var out := Send(DeviceOf(w, p), b, ratchet, ephemeral).value;
    SameChainFacts(w, h, p, r, FlightOf(w, p, out, content));
    var r' := r.(sendChain := Some(NextChain(r.sendChain.value)), sendCount := r.sendCount + 1);
    SendKeeps(w, h, None, p, r', {ratchet, ephemeral}, FlightOf(w, p, out, content));
  }

  lemma PartyShape(w: World, h: History, p: Party)
    requires Inv(w, h) && InSession(w, p)
    ensures ShapeOk(h, p, SessionOf(w, p)) && 0 <= Own(h, p) < |h.keys| == |h.counts|
    ensures forall c :: 0 < c < |h.counts| ==> h.counts[c] > 0
  {
  }

  lemma SameChainResult(w: World, h: History, p: Party, b: Bundle, ratchet: KeyId, ephemeral: KeyId, content: Content)
    requires InSession(w, p) && b.peer == Name(Other(p)) && !SessionOf(w, p).pendingRatchet
    requires ShapeOk(h, p, SessionOf(w, p))
    ensures Send(DeviceOf(w, p), b, ratchet, ephemeral).Ok?
    ensures var r, out := SessionOf(w, p), Send(DeviceOf(w, p), b, ratchet, ephemeral).value;
            var f := FlightOf(w, p, out, content);
            && r.sendChain.Some? && f.env.box.key == MessageKey(r.sendChain.value)
            && f.env.header == Header(r.localRatchet, r.previousSendCount, r.sendCount, None)
            && WithDevice(w, p, out.device).(used := w.used + {ratchet, ephemeral}, sent := w.sent + [f])
            == AfterSending(w, p, r.(sendChain := Some(NextChain(r.sendChain.value)), sendCount := r.sendCount + 1),
                            {ratchet, ephemeral}, f)
  {
  }

  lemma SameChainFacts(w: World, h: History, p: Party, r: Record, f: Flight)
    requires ShapeOk(h, p, r) && !r.pendingRatchet
    requires f.from == p && f.env.sender == Name(p) && f.env.header.initialSession.None?
    requires f.env.header.ratchetKey == r.localRatchet && f.env.header.messageNumber == r.sendCount
    requires r.sendChain.Some? ==> f.env.box.key == MessageKey(r.sendChain.value)
    requires forall c :: 0 < c < |h.counts| ==> h.counts[c] > 0
    ensures 0 < Own(h, p) && r.sendChain.Some?
    ensures var r', h' := r.(sendChain := Some(NextChain(r.sendChain.value)), sendCount := r.sendCount + 1),
                          Grown(h, None, Own(h, p));
            && ShapeOk(h', p, r')
            && FlightOk(h'.base, h'.keys, h'.counts, Slot(Own(h, p), h.counts[Own(h, p)]), f)
  {
  }

  /** The peer has rotated since: a new ratchet key opens the next chain. */
  lemma RotatingSend(w: World, h: History, p: Party, b: Bundle, ratchet: KeyId, ephemeral: KeyId, content: Content)
    requires Inv(w, h) && InSession(w, p) && b.peer == Name(Other(p)) && SessionOf(w, p).pendingRatchet
    requires ratchet !in w.used
    ensures Send(DeviceOf(w, p), b, ratchet, ephemeral).Ok?
    ensures var out := Send(DeviceOf(w, p), b, ratchet, ephemeral).value;
            && 0 <= Own(h, p) < |h.counts|
            && Inv(WithDevice(w, p, out.device).(used := w.used + {ratchet, ephemeral},
                                                 sent := w.sent + [FlightOf(w, p, out, content)]),
                   Grown(h, Some(ratchet), Own(h, p)))
  {
    hide Inv, ShapeOk, FlightOk, AfterSending, Send, Grown, Rotated;
    var r := SessionOf(w, p);
    PartyShape(w, h, p);
    RotatingResult(w, h, p, b, ratchet, ephemeral, content);
    var out, q := Send(DeviceOf(w, p), b, ratchet, ephemeral).value, Rotated(r, ratchet);
    RotatingFacts(w, h, p, r, ratchet, FlightOf(w, p, out, content));
    var r' := q.(sendChain := Some(NextChain(q.sendChain.value)), sendCount := 1);
    RotatedRecord(r, ratchet);
    SendKeeps(w, h, Some(ratchet), p, r', {ratchet, ephemeral}, FlightOf(w, p, out, content));
  }

  lemma RotatedRecord(r: Record, ratchet: KeyId)
    requires r.remoteRatchet.Some?
    ensures var q := Rotated(r, ratchet);
            q.sendChain.Some? && q.skipped == r.skipped && q.receiveCount == r.receiveCount
  {
  }

  lemma RotatingResult(w: World, h: History, p: Party, b: Bundle, ratchet: KeyId, ephemeral: KeyId, content: Content)
    requires InSession(w, p) && b.peer == Name(Other(p)) && SessionOf(w, p).pendingRatchet
    requires ShapeOk(h, p, SessionOf(w, p))
    ensures SessionOf(w, p).remoteRatchet.Some? && Send(DeviceOf(w, p), b, ratchet, ephemeral).Ok?
    ensures var q, out := Rotated(SessionOf(w, p), ratchet), Send(DeviceOf(w, p), b, ratchet, ephemeral).value;
            var f := FlightOf(w, p, out, content);
            && q.sendChain.Some? && f.env.box.key == MessageKey(q.sendChain.value)
            && f.env.header == Header(ratchet, SessionOf(w, p).sendCount, 0, None)
            && WithDevice(w, p, out.device).(used := w.used + {ratchet, ephemeral}, sent := w.sent + [f])
            == AfterSending(w, p, q.(sendChain := Some(NextChain(q.sendChain.value)), sendCount := 1),
                            {ratchet, ephemeral}, f)
  {
  }

  lemma RotatingFacts(w: World, h: History, p: Party, r: Record, ratchet: KeyId, f: Flight)
    requires ShapeOk(h, p, r) && r.pendingRatchet
    requires f.from == p && f.env.sender == Name(p) && f.env.header.initialSession.None?
    requires f.env.header.ratchetKey == ratchet && f.env.header.messageNumber == 0
    requires f.env.box.key == MessageKey(Rotated(r, ratchet).sendChain.value)
    ensures OwnerOf(|h.keys|) == p
    ensures var q, h' := Rotated(r, ratchet), Grown(h, Some(ratchet), Own(h, p));
            var r' := q.(sendChain := Some(NextChain(q.sendChain.value)), sendCount := 1);
            && ShapeOk(h', p, r')
            && FlightOk(h'.base, h'.keys, h'.counts, Slot(|h.keys|, 0), f)
  {
    var at, keys := At(h, p), h.keys + [ratchet];
    assert at == |h.keys| - 1;
    RootExtends(h.base, h.keys, ratchet, at);
    var start := StartOf(h.base, keys, at + 1);
    assert start == ChainStart(r.rootKey, SharedSecret(ratchet, r.remoteRatchet.value));
    assert ChainAt(start, 0) == start && ChainAt(start, 1) == NextChain(start);
  }

  /** The initiator's first send opens the session. */
  lemma OpeningSend(w: World, h: History, b: Bundle, ratchet: KeyId, ephemeral: KeyId, content: Content) returns (h': History)
    requires Inv(w, h) && !InSession(w, Initiator) && Published(w, Responder, b) && ratchet !in w.used
    ensures Send(w.initiator, b, ratchet, ephemeral).Ok?
    ensures var out := Send(w.initiator, b, ratchet, ephemeral).value;
            Inv(w.(initiator := out.device, used := w.used + {ratchet, ephemeral},
                   sent := w.sent + [FlightOf(w, Initiator, out, content)]), h')
  {
    NothingYet(w, h);
    OpeningFacts(w, h, b, ratchet, ephemeral, content);
    h' := OpeningHistory(w, h, b, ratchet, ephemeral);
    hide Send, FlightOk, InitialOk, ShapeOk, InitiatorSegments, FlightOf;
    var out := Send(w.initiator, b, ratchet, ephemeral).value;
    var f := FlightOf(w, Initiator, out, content);
    var w' := w.(initiator := out.device, used := w.used + {ratchet, ephemeral}, sent := w.sent + [f]);
    assert h'.slots[0] == Slot(1, 0);
    assert KeysOk(w', h') && NetOk(w', h') && CacheOk(w', h') && OpeningOk(w', h');
  }

  function OpeningHistory(w: World, h: History, b: Bundle, ratchet: KeyId, ephemeral: KeyId): History {
    History(X3dhRoot(InitiatorSegments(w.initiator.identity, ephemeral, b)), h.keys + [ratchet], [0, 1], [Slot(1, 0)], 0, 0)
  }

  /** The first envelope and the record it leaves with the initiator. */
  lemma OpeningFacts(w: World, h: History, b: Bundle, ratchet: KeyId, ephemeral: KeyId, content: Content)
    requires !InSession(w, Initiator) && Published(w, Responder, b)
    requires h.keys == [w.responder.signedPrekey] && 0 !in w.responder.oneTimePrekeys
    ensures Send(w.initiator, b, ratchet, ephemeral).Ok?
    ensures var out := Send(w.initiator, b, ratchet, ephemeral).value;
            var f, h' := FlightOf(w, Initiator, out, content), OpeningHistory(w, h, b, ratchet, ephemeral);
            && f.from == Initiator && FlightOk(h'.base, h'.keys, h'.counts, Slot(1, 0), f) && InitialOk(w.responder, h'.base, f.env)
            && Name(Responder) in out.device.sessions
            && ShapeOk(h', Initiator, out.device.sessions[Name(Responder)])
            && out.device.sessions[Name(Responder)].skipped == []
  {
    var out := Send(w.initiator, b, ratchet, ephemeral).value;
    var h' := OpeningHistory(w, h, b, ratchet, ephemeral);
    X3dhAgreement(w.initiator.identity, w.initiator.identity, ephemeral, b, w.responder);
    var start := StartOf(h'.base, h'.keys, 1);
    assert RootOf(h'.base, h'.keys, 0) == h'.base;
    assert ChainAt(start, 0) == start && ChainAt(start, 1) == NextChain(start);
  }

  lemma NothingYet(w: World, h: History)
    requires Inv(w, h) && !InSession(w, Initiator)
    ensures |h.keys| == 1 && w.sent == [] && h.slots == [] && w.cached == {} && !InSession(w, Responder)
  {
    assert |w.sent| > 0 ==> FlightOk(h.base, h.keys, h.counts, h.slots[0], w.sent[0]);
  }

  /** Publishing another one-time prekey changes no session. */
  lemma PrekeyKeeps(w: World, h: History, owner: Party, id: nat, key: KeyId)
    requires Inv(w, h) && Enabled(w, PrekeyStep(owner, id, key))
    ensures Inv(Next(w, PrekeyStep(owner, id, key)), h)
  {
    PrekeySessions(w, owner, id, key);
    PrekeyKeepsNet(w, h, owner, id, key);
    hide NetOk, ShapeOk, StoreOk, Next, Passed;
    var w' := Next(w, PrekeyStep(owner, id, key));
    assert KeysOk(w', h) && CacheOk(w', h) && OpeningOk(w', h);
  }

  lemma PrekeySessions(w: World, owner: Party, id: nat, key: KeyId)
    requires Enabled(w, PrekeyStep(owner, id, key))
    ensures var w' := Next(w, PrekeyStep(owner, id, key));
            && (forall p :: InSession(w', p) == InSession(w, p))
            && (forall p :: InSession(w, p) ==> SessionOf(w', p) == SessionOf(w, p))
            && w'.sent == w.sent && w'.cached == w.cached && w'.used == w.used + {key}
            && w'.responder.signedPrekey == w.responder.signedPrekey
            && (0 !in w.responder.oneTimePrekeys ==> 0 !in w'.responder.oneTimePrekeys)
  {
  }

  lemma PrekeyKeepsNet(w: World, h: History, owner: Party, id: nat, key: KeyId)
    requires NetOk(w, h) && Enabled(w, PrekeyStep(owner, id, key))
    ensures NetOk(Next(w, PrekeyStep(owner, id, key)), h)
  {
    var w' := Next(w, PrekeyStep(owner, id, key));
    hide FlightOk;
    forall i | 0 <= i < |w.sent| ensures InitialOk(w'.responder, h.base, w.sent[i].env) {
      assert InitialOk(w.responder, h.base, w.sent[i].env);
    }
  }

  lemma StepKeeps(w: World, h: History, s: Step) returns (h': History)
    requires Inv(w, h) && Enabled(w, s)
    ensures Inv(Next(w, s), h')
  {
    match s
    case SendStep(from, b, ratchet, ephemeral, content) =>
      if !InSession(w, from) {
        h' := OpeningSend(w, h, b, ratchet, ephemeral, content);
      } else if SessionOf(w, from).pendingRatchet {
        RotatingSend(w, h, from, b, ratchet, ephemeral, content);
        h' := Grown(h, Some(ratchet), Own(h, from));
      } else {
        SameChainSend(w, h, from, b, ratchet, ephemeral, content);
        h' := Grown(h, None, Own(h, from));
      }
    case DeliverStep(i) =>
      h' := DeliverKeeps(w, h, i);
    case PrekeyStep(owner, id, key) =>
      PrekeyKeeps(w, h, owner, id, key);
      h' := h;
  }

  /** Every world of every run satisfies the invariant, for some history. */
  lemma {:induction false} RunInv(w0: World, steps: seq<Step>, k: nat) returns (h: History)
    requires k <= |steps| && IsRun(w0, steps, k)
    ensures Inv(After(w0, steps, k), h)
    decreases k
  {
    if k == 0 {
      h := StartInv(w0);
    } else {
      h := RunInv(w0, steps, k - 1);
      h := StepKeeps(After(w0, steps, k - 1), h, steps[k - 1]);
    }
  }
}
