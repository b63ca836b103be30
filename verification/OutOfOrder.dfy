/** Delivery of the messages of one sending chain in an arbitrary order.

    Functions of an envelope sequence and a count look at the first `k` deliveries. */
module OutOfOrder {
  import opened Options
  import opened KeySchedule
  import opened SkippedKeys
  import opened SignalRecords

  /** A sending chain as one receiver sees it: `start` is the chain key at number `first`. */
  datatype Chain = Chain(sender: Peer, ratchetKey: KeyId, start: ChainKey, first: nat)

  predicate OnChain(c: Chain, env: Envelope) {
    && env.sender == c.sender
    && env.header.ratchetKey == c.ratchetKey
    && env.header.initialSession.None?
    && c.first <= env.header.messageNumber
    && env.box.key == KeyAt(c.start, env.header.messageNumber - c.first)
  }

  function Number(env: Envelope): nat { env.header.messageNumber }

  /** Deliveries of the chain, no number twice. */
  predicate Deliveries(c: Chain, envs: seq<Envelope>) {
    && (forall i :: 0 <= i < |envs| ==> OnChain(c, envs[i]))
    && forall i, j :: 0 <= i < j < |envs| ==> Number(envs[i]) != Number(envs[j])
  }

  /** The next `|envs|` messages of the chain, each delivered once, in some order. */
  predicate Permutation(c: Chain, envs: seq<Envelope>) {
    Deliveries(c, envs) && forall i :: 0 <= i < |envs| ==> Number(envs[i]) < c.first + |envs|
  }

  /** Delivering envelopes one after another; a failed one leaves the device as it was. */
  function DeliverAll(d: Device, envs: seq<Envelope>, k: nat): (Device, seq<bool>)
    requires k <= |envs|
  {
    if k == 0 then (d, [])
    else
      var (before, results) := DeliverAll(d, envs, k - 1);
      match Decrypt(before, envs[k - 1])
      case Ok(o) => (o.device, results + [true])
      case Err(_) => (before, results + [false])
  }

  /** One more than the highest number delivered so far. */
  function Reach(c: Chain, envs: seq<Envelope>, k: nat): nat
    requires k <= |envs|
  {
    if k == 0 then c.first
    else
      var before, n := Reach(c, envs, k - 1), Number(envs[k - 1]);
      if n < before then before else n + 1
  }

  /** How many numbers below the highest delivered one are still missing. */
  function Outstanding(c: Chain, envs: seq<Envelope>, k: nat): int
    requires k <= |envs|
  {
    Reach(c, envs, k) - c.first - k
  }

  predicate NeverTooMany(c: Chain, envs: seq<Envelope>, k: nat)
    requires k <= |envs|
  {
    forall j :: 0 <= j <= k ==> Outstanding(c, envs, j) <= 64
  }

  predicate All(results: seq<bool>) {
    forall i :: 0 <= i < |results| ==> results[i]
  }

  predicate Unrelated(c: Chain, s: Store) {
    Unique(s) && forall i :: 0 <= i < |s| ==> s[i].ratchetKey != c.ratchetKey
  }

  /** The receiver is on the chain and holds no stashed key of it. */
  predicate Ready(c: Chain, r: Record) {
    && r.remoteRatchet == Some(c.ratchetKey)
    && r.receiveChain == Some(c.start)
    && r.receiveCount == c.first
    && |r.skipped| <= MAX_SKIPPED && Unrelated(c, r.skipped)
  }

  /** The receiver has never been on the chain: whichever of its messages comes first enters it. */
  predicate Entering(c: Chain, r: Record) {
    && c.first == 0
    && !(r.remoteRatchet == Some(c.ratchetKey) && r.receiveChain.Some?)
    && c.start == KdfRoot(r.rootKey, SharedSecret(r.localRatchet, c.ratchetKey)).1
    && |r.skipped| <= MAX_SKIPPED && Unrelated(c, r.skipped)
  }

  /** The record once the chain has been entered. */
  function Joined(c: Chain, r: Record): Record {
    if Ready(c, r) then r
    else r.(rootKey := KdfRoot(r.rootKey, SharedSecret(r.localRatchet, c.ratchetKey)).0, receiveChain := Some(c.start),
            receiveCount := 0, remoteRatchet := Some(c.ratchetKey), pendingRatchet := true)
  }

  // ---- the same deliveries seen by the session record alone ----

  function Take(d: Device, r: Record, env: Envelope): Option<Record> {
    match Receive(d, r, env)
    case Err(_) => None
    case Ok(got) => if got.key == env.box.key then Some(got.record) else None
  }

  function TakeAll(d: Device, r: Record, envs: seq<Envelope>, k: nat): (Record, seq<bool>)
    requires k <= |envs|
  {
    if k == 0 then (r, [])
    else
      var (before, results) := TakeAll(d, r, envs, k - 1);
      match Take(d, before, envs[k - 1])
      case Some(after) => (after, results + [true])
      case None => (before, results + [false])
  }

  function Numbers(envs: seq<Envelope>, k: nat): set<nat>
    requires k <= |envs|
  {
    if k == 0 then {} else Numbers(envs, k - 1) + {Number(envs[k - 1])}
  }

  lemma {:induction false} NumberIndex(envs: seq<Envelope>, k: nat, n: nat) returns (i: nat)
    requires k <= |envs| && n in Numbers(envs, k)
    ensures i < k && Number(envs[i]) == n
  {
    if n == Number(envs[k - 1]) {
      i := k - 1;
    } else {
      i := NumberIndex(envs, k - 1, n);
    }
  }

  lemma {:induction false} NumberIn(envs: seq<Envelope>, k: nat, i: nat)
    requires i < k <= |envs|
    ensures Number(envs[i]) in Numbers(envs, k)
    decreases k
  {
    if i < k - 1 {
      NumberIn(envs, k - 1, i);
    }
  }

  lemma NumberNew(c: Chain, envs: seq<Envelope>, k: nat)
    requires Deliveries(c, envs) && k < |envs|
    ensures Number(envs[k]) !in Numbers(envs, k)
  {
    hide OnChain;
    if Number(envs[k]) in Numbers(envs, k) {
      var i := NumberIndex(envs, k, Number(envs[k]));
      assert false;
    }
  }

  lemma {:induction false} NumbersSize(c: Chain, envs: seq<Envelope>, k: nat)
    requires Deliveries(c, envs) && k <= |envs|
    ensures |Numbers(envs, k)| == k
  {
    if k > 0 {
      NumbersSize(c, envs, k - 1);
      NumberNew(c, envs, k - 1);
    }
  }

  lemma {:induction false} ReachBounds(c: Chain, envs: seq<Envelope>, k: nat)
    requires Deliveries(c, envs) && k <= |envs|
    ensures c.first <= Reach(c, envs, k)
    ensures forall n :: n in Numbers(envs, k) ==> c.first <= n < Reach(c, envs, k)
    ensures k > 0 ==> Reach(c, envs, k) - 1 in Numbers(envs, k)
  {
    if k > 0 {
      ReachBounds(c, envs, k - 1);
      assert OnChain(c, envs[k - 1]);
    }
  }

  // ---- the keys that are still missing ----

  function KeyOf(c: Chain, n: nat): Entry
    requires c.first <= n
  {
    Entry(c.ratchetKey, n, KeyAt(c.start, n - c.first))
  }

  /** The keys of the numbers in [first, reach) that are not in `done`, in increasing order. */
  function Missing(c: Chain, reach: nat, done: set<nat>): Store
    requires c.first <= reach
    decreases reach
  {
    if reach == c.first then []
    else Missing(c, reach - 1, done) + if reach - 1 in done then [] else [KeyOf(c, reach - 1)]
  }

  lemma {:induction false} MissingEntries(c: Chain, reach: nat, done: set<nat>)
    requires c.first <= reach
    ensures forall e :: e in Missing(c, reach, done) ==>
              c.first <= e.number < reach && e.number !in done && e == KeyOf(c, e.number)
    ensures Unique(Missing(c, reach, done))
    decreases reach
  {
    if reach > c.first {
      MissingEntries(c, reach - 1, done);
    }
  }

  lemma {:induction false} MissingSame(c: Chain, reach: nat, a: set<nat>, b: set<nat>)
    requires c.first <= reach
    requires forall n :: c.first <= n < reach ==> (n in a <==> n in b)
    ensures Missing(c, reach, a) == Missing(c, reach, b)
    decreases reach
  {
    if reach > c.first {
      MissingSame(c, reach - 1, a, b);
    }
  }

  lemma {:induction false} MissingSize(c: Chain, reach: nat, done: set<nat>)
    requires c.first <= reach
    requires forall n :: n in done ==> c.first <= n < reach
    ensures |Missing(c, reach, done)| == reach - c.first - |done|
    decreases reach
  {
    if reach == c.first {
      assert done == {};
    } else if reach - 1 in done {
      var rest := done - {reach - 1};
      MissingSize(c, reach - 1, rest);
      MissingSame(c, reach - 1, done, rest);
    } else {
      MissingSize(c, reach - 1, done);
    }
  }

  /** Skipping ahead appends exactly the keys that become missing. */
  lemma {:induction false} MissingGrows(c: Chain, reach: nat, n: nat, done: set<nat>)
    requires c.first <= reach <= n
    requires forall k :: k in done ==> k < reach
    ensures Missing(c, n, done)
         == Missing(c, reach, done) + Skips(c.ratchetKey, ChainAt(c.start, reach - c.first), reach, n)
    decreases n
  {
    if reach < n {
      MissingGrows(c, reach, n - 1, done);
      ChainAtCompose(c.start, reach - c.first, n - 1 - reach);
    }
  }

  lemma NotStashed(c: Chain, older: Store, reach: nat, done: set<nat>, n: nat)
    requires c.first <= reach <= n && Unrelated(c, older)
    ensures !Has(older + Missing(c, reach, done), c.ratchetKey, n)
    ensures Unique(older + Missing(c, n, done))
  {
    MissingEntries(c, reach, done);
    MissingEntries(c, n, done);
  }

  /** Taking one missing key leaves the other missing keys. */
  lemma {:induction false} MissingShrinks(c: Chain, older: Store, reach: nat, n: nat, done: set<nat>)
    requires c.first <= n < reach && n !in done && Unrelated(c, older)
    ensures Has(older + Missing(c, reach, done), c.ratchetKey, n)
    ensures Lookup(older + Missing(c, reach, done), c.ratchetKey, n) == Some(KeyAt(c.start, n - c.first))
    ensures Remove(older + Missing(c, reach, done), c.ratchetKey, n) == older + Missing(c, reach, done + {n})
    decreases reach
  {
    hide Has, Lookup, Remove, Position, KeyAt;
    var shorter := older + Missing(c, reach - 1, done);
    if n == reach - 1 {
      NotStashed(c, older, n, done, n);
      RemoveLast(shorter, KeyOf(c, n));
      assert older + Missing(c, reach, done) == shorter + [KeyOf(c, n)];
      MissingSame(c, n, done, done + {n});
    } else {
      MissingShrinks(c, older, reach - 1, n, done);
      var tail := if reach - 1 in done then [] else [KeyOf(c, reach - 1)];
      RemoveFromFront(shorter, tail, c.ratchetKey, n);
      assert older + Missing(c, reach, done) == shorter + tail;
      assert older + Missing(c, reach, done + {n}) == older + Missing(c, reach - 1, done + {n}) + tail;
    }
  }

  // ---- one delivery ----

  /** A receiver at count `reach` that has opened exactly the numbers `done`, with the keys
      `older` of other chains in front of its store. */
  function Behind(c: Chain, r: Record, reach: nat, done: set<nat>, older: Store): Record
    requires c.first <= reach
  {
    r.(receiveChain := Some(ChainAt(c.start, reach - c.first)), receiveCount := reach,
       skipped := older + Missing(c, reach, done))
  }

  lemma TakeStashed(c: Chain, d: Device, r: Record, reach: nat, done: set<nat>, older: Store, env: Envelope)
    requires OnChain(c, env) && Number(env) < reach && Number(env) !in done && Unrelated(c, older)
    ensures Take(d, Behind(c, r, reach, done, older), env)
         == Some(Behind(c, r, reach, done + {Number(env)}, older))
  {
    MissingShrinks(c, older, reach, Number(env), done);
  }

  /** A message at or past the current count, on the current chain. */
  lemma TakeAhead(c: Chain, d: Device, r: Record, env: Envelope, stash: Store)
    requires OnChain(c, env) && r.remoteRatchet == Some(c.ratchetKey)
    requires c.first <= r.receiveCount <= Number(env)
    requires r.receiveChain == Some(ChainAt(c.start, r.receiveCount - c.first))
    requires !Has(r.skipped, c.ratchetKey, Number(env))
    requires stash == StashAll(r.skipped, Skips(c.ratchetKey, r.receiveChain.value, r.receiveCount, Number(env)))
    ensures Take(d, r, env) == Some(r.(receiveChain := Some(ChainAt(c.start, Number(env) + 1 - c.first)),
                                       receiveCount := Number(env) + 1, skipped := stash))
  {
    hide StashAll, Skips;
    ChainAtCompose(c.start, r.receiveCount - c.first, Number(env) - r.receiveCount);
  }

  /** What stashing up to number `n` leaves: the newest of the older keys and the missing ones. */
  lemma StashedUpTo(c: Chain, reach: nat, done: set<nat>, older: Store, n: nat)
    requires c.first <= reach <= n && Unrelated(c, older)
    requires |older + Missing(c, reach, done)| <= MAX_SKIPPED
    requires forall k :: k in done ==> k < reach
    ensures StashAll(older + Missing(c, reach, done), Skips(c.ratchetKey, ChainAt(c.start, reach - c.first), reach, n))
         == Newest(older + Missing(c, n, done))
  {
    hide Skips, StashAll, Newest, Missing;
    var skips := Skips(c.ratchetKey, ChainAt(c.start, reach - c.first), reach, n);
    MissingGrows(c, reach, n, done);
    NotStashed(c, older, reach, done, n);
    assert older + Missing(c, n, done) == older + Missing(c, reach, done) + skips;
    StashAllNewest(older + Missing(c, reach, done), skips);
  }

  /** Cutting to the newest entries never touches a tail that fits. */
  lemma NewestKeepsTail(older: Store, tail: Store) returns (kept: Store)
    requires |tail| <= MAX_SKIPPED
    ensures |kept| <= |older| && kept == older[|older| - |kept|..]
    ensures Newest(older + tail) == kept + tail
  {
    var r := Newest(older + tail);
    kept := older[|older| - (|r| - |tail|)..];
    assert r == kept + tail;
  }

  lemma TakeSkipping(c: Chain, d: Device, r: Record, reach: nat, done: set<nat>, older: Store, env: Envelope)
      returns (kept: Store)
    requires OnChain(c, env) && c.first <= reach <= Number(env) && r.remoteRatchet == Some(c.ratchetKey)
    requires |older + Missing(c, reach, done)| <= MAX_SKIPPED && |Missing(c, Number(env), done)| <= MAX_SKIPPED
    requires Unrelated(c, older) && forall k :: k in done ==> k < reach
    ensures |kept| <= |older| && kept == older[|older| - |kept|..]
    ensures |kept + Missing(c, Number(env) + 1, done + {Number(env)})| <= MAX_SKIPPED
    ensures Take(d, Behind(c, r, reach, done, older), env)
         == Some(Behind(c, r, Number(env) + 1, done + {Number(env)}, kept))
  {
    hide StashAll, Skips, Take, Has, Newest, OnChain;
    var n := Number(env);
    NotStashed(c, older, reach, done, n);
    StashedUpTo(c, reach, done, older, n);
    kept := NewestKeepsTail(older, Missing(c, n, done));
    MissingSame(c, n, done, done + {n});
    assert Missing(c, n + 1, done + {n}) == Missing(c, n, done);
    TakeAhead(c, d, Behind(c, r, reach, done, older), env, kept + Missing(c, n, done));
  }

  /** `WithinBound` for a receiver that is on the chain. */
  lemma {:induction false} WithinBoundOn(c: Chain, d: Device, r: Record, envs: seq<Envelope>, k: nat)
      returns (older: Store)
    requires Ready(c, r) && Deliveries(c, envs) && k <= |envs| && NeverTooMany(c, envs, k)
    ensures All(TakeAll(d, r, envs, k).1)
    ensures |older| <= |r.skipped| && older == r.skipped[|r.skipped| - |older|..]
    ensures c.first <= Reach(c, envs, k)
    ensures |older + Missing(c, Reach(c, envs, k), Numbers(envs, k))| <= MAX_SKIPPED
    ensures TakeAll(d, r, envs, k).0 == Behind(c, r, Reach(c, envs, k), Numbers(envs, k), older)
  {
    hide Take, OnChain;
    if k == 0 {
      older := r.skipped;
      assert older + Missing(c, c.first, {}) == older;
    } else {
      hide Behind, Missing;
      var kept := WithinBoundOn(c, d, r, envs, k - 1);
      older := OneMore(c, d, r, envs, k - 1, kept);
    }
  }

  lemma OneMore(c: Chain, d: Device, r: Record, envs: seq<Envelope>, k: nat, kept: Store) returns (older: Store)
    requires Deliveries(c, envs) && k < |envs| && r.remoteRatchet == Some(c.ratchetKey)
    requires Unrelated(c, kept) && Outstanding(c, envs, k + 1) <= MAX_SKIPPED
    requires c.first <= Reach(c, envs, k)
    requires |kept + Missing(c, Reach(c, envs, k), Numbers(envs, k))| <= MAX_SKIPPED
    ensures |older| <= |kept| && older == kept[|kept| - |older|..]
    ensures c.first <= Reach(c, envs, k + 1)
    ensures |older + Missing(c, Reach(c, envs, k + 1), Numbers(envs, k + 1))| <= MAX_SKIPPED
    ensures Take(d, Behind(c, r, Reach(c, envs, k), Numbers(envs, k), kept), envs[k])
         == Some(Behind(c, r, Reach(c, envs, k + 1), Numbers(envs, k + 1), older))
  {
    hide Take, Missing, Behind, Unrelated;
    var reach, done, n := Reach(c, envs, k), Numbers(envs, k), Number(envs[k]);
    ReachBounds(c, envs, k);
    NumbersSize(c, envs, k);
    NumberNew(c, envs, k);
    assert Numbers(envs, k + 1) == done + {n};
    assert Reach(c, envs, k + 1) == if n < reach then reach else n + 1;
    hide Deliveries, Numbers, Reach, OnChain;
    older := StepBehind(c, d, r, reach, done, kept, envs[k]);
  }

  lemma StepBehind(c: Chain, d: Device, r: Record, reach: nat, done: set<nat>, kept: Store, env: Envelope)
      returns (older: Store)
    requires OnChain(c, env) && r.remoteRatchet == Some(c.ratchetKey) && Unrelated(c, kept) && c.first <= reach
    requires |kept + Missing(c, reach, done)| <= MAX_SKIPPED
    requires Number(env) !in done && forall m :: m in done ==> c.first <= m < reach
    requires Number(env) >= reach ==> Number(env) - c.first - |done| <= MAX_SKIPPED
    ensures |older| <= |kept| && older == kept[|kept| - |older|..]
    ensures var next := if Number(env) < reach then reach else Number(env) + 1;
            && |older + Missing(c, next, done + {Number(env)})| <= MAX_SKIPPED
            && Take(d, Behind(c, r, reach, done, kept), env) == Some(Behind(c, r, next, done + {Number(env)}, older))
  {
    var n := Number(env);
    assert c.first <= n;
    hide Take, Missing, OnChain, Behind, Unrelated;
    if n < reach {
      TakeStashed(c, d, r, reach, done, kept, env);
      MissingSize(c, reach, done);
      MissingSize(c, reach, done + {n});
      older := kept;
    } else {
      MissingSize(c, n, done);
      older := TakeSkipping(c, d, r, reach, done, kept, env);
    }
  }

  // ---- entering the chain ----

  /** The first message of a chain, whatever its number, is taken as by a receiver on the chain. */
  lemma TakeEntering(c: Chain, d: Device, r: Record, env: Envelope)
    requires Entering(c, r) && OnChain(c, env)
    ensures Ready(c, Joined(c, r)) && Take(d, r, env) == Take(d, Joined(c, r), env)
  {
    hide StashAll, Skips, Lookup, Remove, Unique;
    NotStashedUnrelated(c, r.skipped, Number(env));
    assert EnterChain(d, r, env) == Entered(Joined(c, r), d.oneTimePrekeys);
    assert EnterChain(d, Joined(c, r), env) == Entered(Joined(c, r), d.oneTimePrekeys);
  }

  lemma NotStashedUnrelated(c: Chain, s: Store, n: nat)
    requires Unrelated(c, s)
    ensures Lookup(s, c.ratchetKey, n) == None
  {
  }

  lemma TakeFirst(c: Chain, d: Device, r: Record, env: Envelope)
    requires Ready(c, r) && OnChain(c, env)
    ensures Take(d, r, env).Some?
  {
    hide StashAll, Skips, Unique;
    NotStashedUnrelated(c, r.skipped, Number(env));
    assert ChainAt(c.start, 0) == c.start;
    TakeAhead(c, d, r, env, StashAll(r.skipped, Skips(c.ratchetKey, c.start, c.first, Number(env))));
  }

  lemma {:induction false} TakeAllJoined(c: Chain, d: Device, r: Record, envs: seq<Envelope>, k: nat)
    requires (Ready(c, r) || Entering(c, r)) && Deliveries(c, envs) && 0 < k <= |envs|
    ensures Ready(c, Joined(c, r)) && TakeAll(d, r, envs, k) == TakeAll(d, Joined(c, r), envs, k)
  {
    hide Take, OnChain, Ready, Entering;
    if !Ready(c, r) {
      if k == 1 {
        TakeEntering(c, d, r, envs[0]);
        TakeFirst(c, d, Joined(c, r), envs[0]);
        assert TakeAll(d, r, envs, 0) == (r, []) && TakeAll(d, Joined(c, r), envs, 0) == (Joined(c, r), []);
      } else {
        TakeAllJoined(c, d, r, envs, k - 1);
      }
    }
  }

  /** As long as at most `MAX_SKIPPED` numbers are outstanding every message opens, whatever older
      keys the store holds and whether the receiver is on the chain or enters it with the first
      of them; the chain's own stash is exactly what is missing. */
  lemma WithinBound(c: Chain, d: Device, r: Record, envs: seq<Envelope>, k: nat) returns (older: Store)
    requires Ready(c, r) || Entering(c, r)
    requires Deliveries(c, envs) && 0 < k <= |envs| && NeverTooMany(c, envs, k)
    ensures All(TakeAll(d, r, envs, k).1)
    ensures |older| <= |r.skipped| && older == r.skipped[|r.skipped| - |older|..]
    ensures c.first <= Reach(c, envs, k)
    ensures |older + Missing(c, Reach(c, envs, k), Numbers(envs, k))| <= MAX_SKIPPED
    ensures TakeAll(d, r, envs, k).0 == Behind(c, Joined(c, r), Reach(c, envs, k), Numbers(envs, k), older)
  {
    hide Take, OnChain, Ready, Entering, Behind, Missing;
    TakeAllJoined(c, d, r, envs, k);
    older := WithinBoundOn(c, d, Joined(c, r), envs, k);
  }

  // ---- past the bound ----

  /** A key that was dropped stays undeliverable. */
  predicate Lost(c: Chain, r: Record, n: nat) {
    && r.remoteRatchet == Some(c.ratchetKey) && r.receiveChain.Some?
    && n < r.receiveCount && !Has(r.skipped, c.ratchetKey, n)
  }

  lemma LostStays(c: Chain, d: Device, r: Record, env: Envelope, n: nat)
    requires Lost(c, r, n) && OnChain(c, env)
    ensures Number(env) == n ==> Take(d, r, env) == None
    ensures Take(d, r, env).Some? ==> Lost(c, Take(d, r, env).value, n)
  {
    var m := Number(env);
    HasIff(r.skipped, c.ratchetKey, n);
    if Has(r.skipped, c.ratchetKey, m) {
      HasIff(Remove(r.skipped, c.ratchetKey, m), c.ratchetKey, n);
    } else if m >= r.receiveCount {
      var skips := Skips(c.ratchetKey, r.receiveChain.value, r.receiveCount, m);
      SkipsEntries(c.ratchetKey, r.receiveChain.value, r.receiveCount, m);
      StashAllAvoids(r.skipped, skips, c.ratchetKey, n);
      HasIff(StashAll(r.skipped, skips), c.ratchetKey, n);
    }
  }

  lemma LostNext(c: Chain, d: Device, r: Record, envs: seq<Envelope>, k: nat, n: nat)
    requires k < |envs| && OnChain(c, envs[k])
    requires Lost(c, TakeAll(d, r, envs, k).0, n)
    ensures Lost(c, TakeAll(d, r, envs, k + 1).0, n)
  {
    hide Lost, Take, OnChain;
    LostStays(c, d, TakeAll(d, r, envs, k).0, envs[k], n);
  }

  lemma {:induction false} LostUntil(c: Chain, d: Device, r: Record, envs: seq<Envelope>, j: nat, k: nat, n: nat)
    requires j <= k <= |envs| && Deliveries(c, envs)
    requires Lost(c, TakeAll(d, r, envs, j).0, n)
    ensures Lost(c, TakeAll(d, r, envs, k).0, n)
    decreases k
  {
    hide Lost, OnChain, TakeAll;
    if j < k {
      LostUntil(c, d, r, envs, j, k - 1, n);
      LostNext(c, d, r, envs, k - 1, n);
    }
  }

  /** `Overflow` for a receiver that is on the chain. */
  lemma OverflowOn(c: Chain, d: Device, r: Record, envs: seq<Envelope>, k: nat) returns (n: nat)
    requires Ready(c, r) && Deliveries(c, envs) && k < |envs|
    requires NeverTooMany(c, envs, k) && Outstanding(c, envs, k + 1) > MAX_SKIPPED
    ensures c.first <= n < Reach(c, envs, k + 1) && n !in Numbers(envs, k + 1)
    ensures Lost(c, TakeAll(d, r, envs, k + 1).0, n)
  {
    hide Take, Missing, OnChain, Behind, Lost;
    var reach, done, m := Reach(c, envs, k), Numbers(envs, k), Number(envs[k]);
    var kept := WithinBoundOn(c, d, r, envs, k);
    ReachBounds(c, envs, k);
    NumbersSize(c, envs, k);
    NumberNew(c, envs, k);
    assert Outstanding(c, envs, k) <= MAX_SKIPPED;
    n := DropStep(c, d, r, reach, done, kept, envs[k]);
  }

  /** Passing the bound for the first time drops a missing key for good. */
  lemma Overflow(c: Chain, d: Device, r: Record, envs: seq<Envelope>, k: nat) returns (n: nat)
    requires Ready(c, r) || Entering(c, r)
    requires Deliveries(c, envs) && k < |envs|
    requires NeverTooMany(c, envs, k) && Outstanding(c, envs, k + 1) > MAX_SKIPPED
    ensures c.first <= n < Reach(c, envs, k + 1) && n !in Numbers(envs, k + 1)
    ensures Lost(c, TakeAll(d, r, envs, k + 1).0, n)
  {
    hide Take, OnChain, Ready, Entering, Lost;
    TakeAllJoined(c, d, r, envs, k + 1);
    n := OverflowOn(c, d, Joined(c, r), envs, k);
  }

  lemma DropStep(c: Chain, d: Device, r: Record, reach: nat, done: set<nat>, kept: Store, last: Envelope)
      returns (n: nat)
    requires OnChain(c, last) && c.first <= reach <= Number(last) && r.remoteRatchet == Some(c.ratchetKey)
    requires |kept + Missing(c, reach, done)| <= MAX_SKIPPED && Unrelated(c, kept)
    requires forall k :: k in done ==> c.first <= k < reach
    requires Number(last) - c.first - |done| > MAX_SKIPPED
    ensures c.first <= n < Number(last) && n !in done
    ensures Take(d, Behind(c, r, reach, done, kept), last).Some?
    ensures Lost(c, Take(d, Behind(c, r, reach, done, kept), last).value, n)
  {
    hide StashAll, Skips, Take, Newest, OnChain, Missing;
    var m := Number(last);
    NotStashed(c, kept, reach, done, m);
    StashedUpTo(c, reach, done, kept, m);
    MissingSize(c, m, done);
    n := OldestDropped(c, kept, m, done);
    TakeAhead(c, d, Behind(c, r, reach, done, kept), last, Newest(kept + Missing(c, m, done)));
  }

  lemma OldestDropped(c: Chain, older: Store, m: nat, done: set<nat>) returns (n: nat)
    requires c.first <= m && |Missing(c, m, done)| > MAX_SKIPPED
    ensures c.first <= n < m && n !in done && !Has(Newest(older + Missing(c, m, done)), c.ratchetKey, n)
  {
    hide Missing;
    var missing := Missing(c, m, done);
    var cut := Newest(older + missing);
    MissingEntries(c, m, done);
    assert missing[0] in missing;
    n := missing[0].number;
    var offset := |missing| - MAX_SKIPPED;
    assert cut == missing[offset..];
    forall i | 0 <= i < |cut| ensures !Names(cut[i], c.ratchetKey, n) {
      assert cut[i] == missing[offset + i];
      assert !Names(missing[offset + i], missing[0].ratchetKey, missing[0].number);
    }
  }

  /** As many distinct numbers as there are places fill every place. */
  lemma {:induction false} Pigeonhole(s: set<nat>, first: nat, n: nat)
    requires forall x :: x in s ==> first <= x < first + n
    ensures |s| <= n
    ensures |s| == n ==> forall x :: first <= x < first + n ==> x in s
    decreases n
  {
    if n == 0 {
      assert s == {};
    } else {
      var top := first + n - 1;
      var rest := s - {top};
      Pigeonhole(rest, first, n - 1);
      if |s| == n {
        assert top in s;
        forall x | first <= x < first + n ensures x in s {
          assert x == top || x in rest;
        }
      }
    }
  }

  lemma PermutationFills(c: Chain, envs: seq<Envelope>)
    requires Permutation(c, envs)
    ensures forall x :: x in Numbers(envs, |envs|) <==> c.first <= x < c.first + |envs|
    ensures Reach(c, envs, |envs|) == c.first + |envs|
  {
    NumbersSize(c, envs, |envs|);
    ReachBounds(c, envs, |envs|);
    forall x | x in Numbers(envs, |envs|) ensures x < c.first + |envs| {
      var i := NumberIndex(envs, |envs|, x);
    }
    Pigeonhole(Numbers(envs, |envs|), c.first, |envs|);
    assert envs != [] ==> c.first + |envs| - 1 in Numbers(envs, |envs|);
  }

  lemma {:induction false} FirstExcess(c: Chain, envs: seq<Envelope>, k: nat) returns (j: nat)
    requires k <= |envs| && !NeverTooMany(c, envs, k)
    ensures j < k && Outstanding(c, envs, j + 1) > MAX_SKIPPED && NeverTooMany(c, envs, j)
    decreases k
  {
    assert Outstanding(c, envs, 0) == 0;
    hide Outstanding;
    if NeverTooMany(c, envs, k - 1) {
      j := k - 1;
    } else {
      j := FirstExcess(c, envs, k - 1);
    }
  }

  lemma {:induction false} FailsAt(d: Device, r: Record, envs: seq<Envelope>, j: nat, k: nat)
    requires j < k <= |envs| && Take(d, TakeAll(d, r, envs, j).0, envs[j]) == None
    ensures |TakeAll(d, r, envs, k).1| == k
    ensures !TakeAll(d, r, envs, k).1[j]
    decreases k
  {
    hide Take;
    ResultCount(d, r, envs, k - 1);
    if j < k - 1 {
      FailsAt(d, r, envs, j, k - 1);
    }
  }

  lemma {:induction false} ResultCount(d: Device, r: Record, envs: seq<Envelope>, k: nat)
    requires k <= |envs|
    ensures |TakeAll(d, r, envs, k).1| == k
  {
    hide Take;
    if k > 0 {
      ResultCount(d, r, envs, k - 1);
    }
  }

  lemma DeliveredLater(c: Chain, envs: seq<Envelope>, j: nat, n: nat) returns (k: nat)
    requires Permutation(c, envs) && 0 < j <= |envs|
    requires c.first <= n < Reach(c, envs, j) && n !in Numbers(envs, j)
    ensures j <= k < |envs| && Number(envs[k]) == n
  {
    hide OnChain;
    PermutationFills(c, envs);
    ReachBounds(c, envs, j);
    var top := NumberIndex(envs, j, Reach(c, envs, j) - 1);
    k := NumberIndex(envs, |envs|, n);
    if k < j {
      NumberIn(envs, j, k);
    }
  }

  lemma SomeFails(c: Chain, d: Device, r: Record, envs: seq<Envelope>)
    requires (Ready(c, r) || Entering(c, r)) && Permutation(c, envs) && !NeverTooMany(c, envs, |envs|)
    ensures !All(TakeAll(d, r, envs, |envs|).1)
  {
    hide Ready, Entering, Take, OnChain, NeverTooMany, Outstanding, Lost;
    var j := FirstExcess(c, envs, |envs|);
    var n := Overflow(c, d, r, envs, j);
    var k := DeliveredLater(c, envs, j + 1, n);
    LostUntil(c, d, r, envs, j + 1, k, n);
    LostStays(c, d, TakeAll(d, r, envs, k).0, envs[k], n);
    FailsAt(d, r, envs, k, |envs|);
  }

  // ---- the device ----

  lemma PrekeysUntouched(d: Device, mid: Device, r: Record, env: Envelope)
    requires env.header.initialSession.None? && mid.oneTimePrekeys == d.oneTimePrekeys
    ensures Receive(mid, r, env) == Receive(d, r, env)
    ensures Receive(d, r, env).Ok? ==> Receive(d, r, env).value.oneTimePrekeys == d.oneTimePrekeys
  {
  }

  function WithSession(d: Device, peer: Peer, r: Record): Device {
    d.(sessions := d.sessions[peer := r])
  }

  lemma DeliverOne(c: Chain, d: Device, r: Record, env: Envelope)
    requires c.sender in d.sessions && OnChain(c, env)
    ensures match Take(d, r, env)
            case Some(after) => Decrypt(WithSession(d, c.sender, r), env).Ok?
                                && Decrypt(WithSession(d, c.sender, r), env).value.device == WithSession(d, c.sender, after)
            case None => Decrypt(WithSession(d, c.sender, r), env).Err?
  {
    hide Receive;
    var mid := WithSession(d, c.sender, r);
    PrekeysUntouched(d, mid, r, env);
    if Take(d, r, env).Some? {
      var after := Take(d, r, env).value;
      assert mid.sessions[c.sender := after] == d.sessions[c.sender := after];
    }
  }

  /** The whole device changes in the one session record only. */
  predicate Follows(c: Chain, d: Device, envs: seq<Envelope>, k: nat)
    requires c.sender in d.sessions && k <= |envs|
  {
    var taken := TakeAll(d, d.sessions[c.sender], envs, k);
    DeliverAll(d, envs, k) == (WithSession(d, c.sender, taken.0), taken.1)
  }

  lemma FollowsNone(c: Chain, d: Device, envs: seq<Envelope>)
    requires c.sender in d.sessions
    ensures Follows(c, d, envs, 0)
  {
    assert d.sessions == d.sessions[c.sender := d.sessions[c.sender]];
  }

  lemma FollowsOne(c: Chain, d: Device, envs: seq<Envelope>, k: nat)
    requires c.sender in d.sessions && k < |envs| && OnChain(c, envs[k]) && Follows(c, d, envs, k)
    ensures Follows(c, d, envs, k + 1)
  {
    hide Decrypt, Take, OnChain, WithSession;
    DeliverOne(c, d, TakeAll(d, d.sessions[c.sender], envs, k).0, envs[k]);
  }

  lemma {:induction false} DeviceFollows(c: Chain, d: Device, envs: seq<Envelope>, k: nat)
    requires c.sender in d.sessions && Deliveries(c, envs) && k <= |envs|
    ensures Follows(c, d, envs, k)
  {
    hide Follows, OnChain;
    if k == 0 {
      FollowsNone(c, d, envs);
    } else {
      DeviceFollows(c, d, envs, k - 1);
      FollowsOne(c, d, envs, k - 1);
    }
  }

  /** Out-of-order delivery, exactly: every message of a permutation opens if and only if at no
      point more than `MAX_SKIPPED` earlier numbers are outstanding, both for the rest of the chain
      the receiver is on and for a whole chain it enters with the first message to arrive. When it
      holds, the receiver ends at the sender's chain key with no key of the chain in the store. */
  lemma OutOfOrderDelivery(c: Chain, d: Device, envs: seq<Envelope>)
    requires c.sender in d.sessions && Permutation(c, envs)
    requires Ready(c, d.sessions[c.sender]) || Entering(c, d.sessions[c.sender])
    ensures All(DeliverAll(d, envs, |envs|).1) <==> NeverTooMany(c, envs, |envs|)
    ensures c.sender in DeliverAll(d, envs, |envs|).0.sessions
    ensures NeverTooMany(c, envs, |envs|) && (envs != [] || Ready(c, d.sessions[c.sender])) ==>
              var before, after := d.sessions[c.sender].skipped, DeliverAll(d, envs, |envs|).0.sessions[c.sender];
              && after.remoteRatchet == Some(c.ratchetKey)
              && after.receiveCount == c.first + |envs|
              && after.receiveChain == Some(ChainAt(c.start, |envs|))
              && |after.skipped| <= |before| && after.skipped == before[|before| - |after.skipped|..]
  {
    hide Take, OnChain, Ready, Entering;
    var r := d.sessions[c.sender];
    DeviceFollows(c, d, envs, |envs|);
    if envs == [] {
      NothingDelivered(c, d, r, envs);
    } else if NeverTooMany(c, envs, |envs|) {
      AllOpen(c, d, r, envs);
    } else {
      SomeFails(c, d, r, envs);
    }
  }

  lemma NothingDelivered(c: Chain, d: Device, r: Record, envs: seq<Envelope>)
    requires envs == []
    ensures TakeAll(d, r, envs, 0) == (r, []) && All([]) && NeverTooMany(c, envs, 0) && ChainAt(c.start, 0) == c.start
    ensures Ready(c, r) ==>
              r.remoteRatchet == Some(c.ratchetKey) && r.receiveCount == c.first && r.receiveChain == Some(c.start)
  {
  }

  lemma AllOpen(c: Chain, d: Device, r: Record, envs: seq<Envelope>)
    requires (Ready(c, r) || Entering(c, r)) && Permutation(c, envs) && envs != [] && NeverTooMany(c, envs, |envs|)
    ensures var (after, results) := TakeAll(d, r, envs, |envs|);
            && All(results) && after.remoteRatchet == Some(c.ratchetKey) && after.receiveCount == c.first + |envs|
            && after.receiveChain == Some(ChainAt(c.start, |envs|))
            && |after.skipped| <= |r.skipped| && after.skipped == r.skipped[|r.skipped| - |after.skipped|..]
  {
    hide Take, OnChain, Ready, Entering;
    PermutationFills(c, envs);
    TakeAllJoined(c, d, r, envs, |envs|);
    var older := WithinBound(c, d, r, envs, |envs|);
    NumbersSize(c, envs, |envs|);
    ReachBounds(c, envs, |envs|);
    MissingSize(c, Reach(c, envs, |envs|), Numbers(envs, |envs|));
    assert older + Missing(c, Reach(c, envs, |envs|), Numbers(envs, |envs|)) == older;
    ReadyIsOn(c, Joined(c, r));
  }

  lemma ReadyIsOn(c: Chain, r: Record)
    requires Ready(c, r)
    ensures r.remoteRatchet == Some(c.ratchetKey)
  {
  }
}
