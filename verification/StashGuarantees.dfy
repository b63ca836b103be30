/** Which skipped keys a session holds, over every run of the two-party protocol: those of the
    messages it has read past without opening them, in sending order, save the ones that newer
    such keys have pushed out. */
module StashGuarantees {
  import opened Options
  import opened KeySchedule
  import opened SkippedKeys
  import opened SignalRecords
  import opened SessionProtocol
  import opened SessionGuarantees

  // ---- lists of envelopes ----

  /** The entry under which the key of an envelope is stashed. */
  function EntryOf(env: Envelope): Entry {
    Entry(env.header.ratchetKey, env.header.messageNumber, env.box.key)
  }

  predicate Holds(s: Store, env: Envelope) {
    Has(s, env.header.ratchetKey, env.header.messageNumber)
  }

  /** The entries of the chosen envelopes among the first `n`, in sending order. */
  function Listed(sent: seq<Flight>, chosen: set<nat>, n: nat): Store
    requires n <= |sent|
  {
    if n == 0 then []
    else Listed(sent, chosen, n - 1) + if n - 1 in chosen then [EntryOf(sent[n - 1].env)] else []
  }

  /** No two of the chosen envelopes have the same header pair. */
  predicate Distinct(sent: seq<Flight>, chosen: set<nat>) {
    forall i, j :: i in chosen && j in chosen && i < |sent| && j < |sent| && i != j ==>
      !Names(EntryOf(sent[i].env), sent[j].env.header.ratchetKey, sent[j].env.header.messageNumber)
  }

  lemma {:induction false} ListedEntries(sent: seq<Flight>, chosen: set<nat>, n: nat)
    requires n <= |sent|
    ensures forall i :: i in chosen && i < n ==> EntryOf(sent[i].env) in Listed(sent, chosen, n)
    ensures forall e :: e in Listed(sent, chosen, n) ==> exists i :: 0 <= i < n && i in chosen && e == EntryOf(sent[i].env)
  {
    if n > 0 {
      ListedEntries(sent, chosen, n - 1);
    }
  }

  lemma {:induction false} ListedUnique(sent: seq<Flight>, chosen: set<nat>, n: nat)
    requires n <= |sent| && Distinct(sent, chosen)
    ensures Unique(Listed(sent, chosen, n))
  {
    if n > 0 {
      ListedUnique(sent, chosen, n - 1);
      ListedEntries(sent, chosen, n - 1);
      var before := Listed(sent, chosen, n - 1);
      if n - 1 in chosen {
        var e := EntryOf(sent[n - 1].env);
        forall k | 0 <= k < |before| ensures !Names(e, before[k].ratchetKey, before[k].number) {
          assert before[k] in before;
        }
      }
    }
  }

  lemma {:induction false} ListedSame(sent: seq<Flight>, more: seq<Flight>, a: set<nat>, b: set<nat>, n: nat)
    requires n <= |sent| && n <= |more| && forall i :: 0 <= i < n ==> sent[i] == more[i] && (i in a <==> i in b)
    ensures Listed(sent, a, n) == Listed(more, b, n)
  {
    if n > 0 {
      ListedSame(sent, more, a, b, n - 1);
    }
  }

  lemma {:induction false} ListedBeyond(sent: seq<Flight>, chosen: set<nat>, m: nat, n: nat)
    requires m <= n <= |sent| && forall i :: m <= i < n ==> i !in chosen
    ensures Listed(sent, chosen, n) == Listed(sent, chosen, m)
    decreases n
  {
    if m < n {
      ListedBeyond(sent, chosen, m, n - 1);
    }
  }

  /** An envelope sent after all the chosen ones goes to the end. */
  lemma ListedAppend(sent: seq<Flight>, chosen: set<nat>, j: nat)
    requires j < |sent| && forall x :: x in chosen ==> x < j
    ensures Listed(sent, chosen + {j}, |sent|) == Listed(sent, chosen, |sent|) + [EntryOf(sent[j].env)]
  {
    ListedBeyond(sent, chosen, j, |sent|);
    ListedBeyond(sent, chosen + {j}, j + 1, |sent|);
    ListedSame(sent, sent, chosen, chosen + {j}, j);
  }

  lemma {:induction false} ListedWithout(sent: seq<Flight>, chosen: set<nat>, j: nat, n: nat)
    requires j < n <= |sent| && j in chosen && Distinct(sent, chosen)
    ensures Listed(sent, chosen - {j}, n)
         == Remove(Listed(sent, chosen, n), sent[j].env.header.ratchetKey, sent[j].env.header.messageNumber)
    ensures Holds(Listed(sent, chosen, n), sent[j].env)
    decreases n
  {
    hide Has, Remove;
    var e := EntryOf(sent[j].env);
    if j == n - 1 {
      ListedSame(sent, sent, chosen, chosen - {j}, j);
      ListedUnique(sent, chosen, n);
      ListedUnique(sent, chosen, j);
      LastIsNew(Listed(sent, chosen, j), e);
      RemoveLast(Listed(sent, chosen, j), e);
    } else {
      ListedWithout(sent, chosen, j, n - 1);
      RemoveFromFront(Listed(sent, chosen, n - 1), if n - 1 in chosen then [EntryOf(sent[n - 1].env)] else [],
                      e.ratchetKey, e.number);
    }
  }

  lemma LastIsNew(s: Store, e: Entry)
    requires Unique(s + [e])
    ensures !Has(s, e.ratchetKey, e.number)
  {
    forall i | 0 <= i < |s| ensures !Names(s[i], e.ratchetKey, e.number) {
      assert (s + [e])[i] == s[i] && (s + [e])[|s|] == e;
    }
  }

  // ---- how many are newer ----

  function Newer(chosen: set<nat>, i: nat): set<nat> {
    set x | x in chosen && i < x
  }

  function Below(chosen: set<nat>, n: nat): set<nat> {
    set x | x in chosen && x < n
  }

  lemma {:induction false} ListedLength(sent: seq<Flight>, chosen: set<nat>, n: nat)
    requires n <= |sent|
    ensures |Listed(sent, chosen, n)| == |Below(chosen, n)|
  {
    if n == 0 {
      assert Below(chosen, 0) == {};
    } else {
      ListedLength(sent, chosen, n - 1);
      assert Below(chosen, n) == Below(chosen, n - 1) + if n - 1 in chosen then {n - 1} else {};
    }
  }

  lemma {:induction false} ListedAt(sent: seq<Flight>, chosen: set<nat>, i: nat, n: nat)
    requires i < n <= |sent| && i in chosen
    ensures var s, k := Listed(sent, chosen, n), |Listed(sent, chosen, i)|; k < |s| && s[k] == EntryOf(sent[i].env)
    decreases n
  {
    if i < n - 1 {
      ListedAt(sent, chosen, i, n - 1);
    }
  }

  /** In a tail of the list an envelope is held exactly when fewer are newer than the tail is long. */
  lemma HeldIff(sent: seq<Flight>, chosen: set<nat>, s: Store, i: nat)
    requires IsTail(s, Listed(sent, chosen, |sent|)) && i in chosen && i < |sent| && Distinct(sent, chosen)
    requires forall x :: x in chosen ==> x < |sent|
    ensures Holds(s, sent[i].env) <==> |Newer(chosen, i)| < |s|
  {
    var all, k, e := Listed(sent, chosen, |sent|), |Listed(sent, chosen, i)|, EntryOf(sent[i].env);
    ListedUnique(sent, chosen, |sent|);
    ListedAt(sent, chosen, i, |sent|);
    ListedLength(sent, chosen, |sent|);
    ListedLength(sent, chosen, i);
    assert chosen == Below(chosen, i) + {i} + Newer(chosen, i);
    assert Below(chosen, |sent|) == chosen;
    assert |all| == k + 1 + |Newer(chosen, i)|;
    AtPosition(all, s, k, e);
  }

  lemma AtPosition(all: Store, s: Store, k: nat, e: Entry)
    requires Unique(all) && IsTail(s, all) && k < |all| && all[k] == e
    ensures Has(s, e.ratchetKey, e.number) <==> |all| - k <= |s|
  {
    var offset := |all| - |s|;
    assert forall i :: 0 <= i < |s| ==> s[i] == all[offset + i];
    if k >= offset {
      assert s[k - offset] == e;
    } else {
      forall i | 0 <= i < |s| ensures !Names(s[i], e.ratchetKey, e.number) {
        assert !Names(all[offset + i], all[k].ratchetKey, all[k].number);
      }
    }
  }

  // ---- what a receiver has read past ----

  /** The envelopes of the chain `p` is on whose numbers are below its count. */
  function ReadNow(w: World, p: Party): set<nat> {
    if !InSession(w, p) then {}
    else set i | 0 <= i < |w.sent| && w.sent[i].from == Other(p)
                 && SessionOf(w, p).remoteRatchet == Some(w.sent[i].env.header.ratchetKey)
                 && w.sent[i].env.header.messageNumber < SessionOf(w, p).receiveCount
  }

  /** The envelope is behind the receiver: below its count, or on a chain it has left. */
  predicate ReadPast(w: World, p: Party, i: nat) {
    && i < |w.sent| && w.sent[i].from == Other(p) && InSession(w, p)
    && var r, header := SessionOf(w, p), w.sent[i].env.header;
    if r.remoteRatchet == Some(header.ratchetKey) then header.messageNumber < r.receiveCount else Superseded(w, i, r)
  }

  lemma ReadPastIff(w: World, h: History, p: Party, i: nat)
    requires Inv(w, h) && InSession(w, p) && i < |w.sent| && w.sent[i].from == Other(p)
    ensures |w.sent| == |h.slots| && (ReadPast(w, p, i) <==> Passed(h, p, SessionOf(w, p), h.slots[i]))
  {
    hide Inv, Superseded, KeyAt, StartOf;
    SlotOnChain(w, h, p, i);
    SupersededIff(w, h, i);
  }

  /** The stash is a tail of the list of what was read past and not opened. */
  predicate StashOk(w: World, p: Party, read: set<nat>) {
    && ReadNow(w, p) <= read
    && (forall i :: i in read ==> ReadPast(w, p, i))
    && (InSession(w, p) ==> IsTail(SessionOf(w, p).skipped, Listed(w.sent, read - w.cached, |w.sent|)))
  }

  /** From one world to the next a waiting key stays, or a new one is stashed, exactly when fewer
      than `MAX_SKIPPED` newer ones wait. */
  predicate Carried(w: World, w': World, p: Party, read: set<nat>, read': set<nat>) {
    forall i :: i in read' - w'.cached && i < |w'.sent| && InSession(w', p) ==>
      (Holds(SessionOf(w', p).skipped, w'.sent[i].env)
       <==> (i in read - w.cached && i < |w.sent| && InSession(w, p) ==> Holds(SessionOf(w, p).skipped, w.sent[i].env))
            && |Newer(read' - w'.cached, i)| < MAX_SKIPPED)
  }

  lemma SentDistinct(w: World, h: History, chosen: set<nat>)
    requires Inv(w, h)
    ensures Distinct(w.sent, chosen)
  {
    hide Inv;
    InvParts(w, h);
    hide KeysOk, NetOk;
    forall i, j | i in chosen && j in chosen && i < |w.sent| && j < |w.sent| && i != j
      ensures !Names(EntryOf(w.sent[i].env), w.sent[j].env.header.ratchetKey, w.sent[j].env.header.messageNumber)
    {
      if Names(EntryOf(w.sent[i].env), w.sent[j].env.header.ratchetKey, w.sent[j].env.header.messageNumber) {
        SameHeader(w, h, i, j);
        assert false;
      }
    }
  }

  /** Sending order is the order of the slots. */
  lemma SentBefore(w: World, h: History, i: nat, j: nat)
    requires NetOk(w, h) && i < |w.sent| == |h.slots| && j < |w.sent|
    requires OwnerOf(h.slots[i].chain) == OwnerOf(h.slots[j].chain) && Before(h.slots[i], h.slots[j])
    ensures i < j
  {
  }

  // ---- steps that do not concern the receiver ----

  /** Nothing about the receiving side of `p` changes, and only envelopes may be added. */
  predicate Unconcerned(w: World, w': World, p: Party) {
    && |w.sent| <= |w'.sent| <= |w.sent| + 1 && w'.sent[..|w.sent|] == w.sent
    && (forall i :: 0 <= i < |w.sent| && w.sent[i].from == Other(p) ==> (i in w'.cached <==> i in w.cached))
    && (InSession(w, p) ==> InSession(w', p))
    && (InSession(w', p) ==>
          var r' := SessionOf(w', p);
          if InSession(w, p) then
            var r := SessionOf(w, p);
            r'.skipped == r.skipped && r'.remoteRatchet == r.remoteRatchet && r'.receiveCount == r.receiveCount
          else r'.skipped == [] && r'.receiveCount == 0)
  }

  /** A new envelope is never behind the receiver already. */
  lemma NotReadYet(w: World, h: History, w': World, h': History, p: Party)
    requires Inv(w, h) && Inv(w', h') && Unconcerned(w, w', p)
    ensures ReadNow(w', p) == ReadNow(w, p)
  {
    hide Inv;
    assert forall i :: 0 <= i < |w.sent| ==> w'.sent[i] == w.sent[i];
    if InSession(w, p) && |w'.sent| > |w.sent| {
      NewNotRead(w, h, w', h', p);
    }
  }

  lemma NewNotRead(w: World, h: History, w': World, h': History, p: Party)
    requires Inv(w, h) && Inv(w', h') && Unconcerned(w, w', p) && InSession(w, p) && |w'.sent| > |w.sent|
    ensures |w.sent| !in ReadNow(w', p)
  {
    hide Inv;
    var n := |w.sent|;
    if n in ReadNow(w', p) {
      var header := w'.sent[n].env.header;
      ReadIsSent(w, h, p, header);
      var j :| 0 <= j < |w.sent| && w.sent[j].env.header.ratchetKey == header.ratchetKey
               && w.sent[j].env.header.messageNumber == header.messageNumber;
      assert w'.sent[j] == w.sent[j];
      InvParts(w', h');
      SameHeader(w', h', j, n);
      assert false;
    }
  }

  /** Every number below the receiver's count was sent. */
  lemma ReadIsSent(w: World, h: History, p: Party, header: Header)
    requires Inv(w, h) && InSession(w, p) && SessionOf(w, p).remoteRatchet == Some(header.ratchetKey)
    requires header.messageNumber < SessionOf(w, p).receiveCount
    ensures exists j :: 0 <= j < |w.sent| && w.sent[j].env.header.ratchetKey == header.ratchetKey
                        && w.sent[j].env.header.messageNumber == header.messageNumber
  {
    hide Inv, KeyAt, StartOf, RootOf;
    PartyShape(w, h, p);
    InvParts(w, h);
    var s := Slot(At(h, p), header.messageNumber);
    assert InChain(h.counts, s);
    var j := FindSlot(w, h, s);
    SlotOnChain(w, h, p, j);
  }

  lemma UnconcernedStep(w: World, h: History, w': World, h': History, p: Party, read: set<nat>)
    requires Inv(w, h) && Inv(w', h') && Unconcerned(w, w', p) && StashOk(w, p, read)
    ensures StashOk(w', p, read + ReadNow(w', p)) && Carried(w, w', p, read, read + ReadNow(w', p))
  {
    hide Inv, ReadNow, ReadPast, Listed, IsTail, Has;
    NotReadYet(w, h, w', h', p);
    assert read + ReadNow(w', p) == read;
    forall i | i in read ensures ReadPast(w', p, i) {
      StillPast(w, w', p, i);
    }
    PastIsSent(w, p, read);
    SameWaiting(w, w', p, read);
    if InSession(w', p) {
      if InSession(w, p) {
        HeldWhereFew(w, h, p, read);
      } else {
        assert read == {} && read - w'.cached == {};
        EmptyListed(w'.sent, |w'.sent|);
      }
    }
  }

  lemma PastIsSent(w: World, p: Party, read: set<nat>)
    requires StashOk(w, p, read)
    ensures forall i :: i in read ==> i < |w.sent| && w.sent[i].from == Other(p) && InSession(w, p)
  {
    hide ReadNow, Superseded, Listed, IsTail;
  }

  lemma SameWaiting(w: World, w': World, p: Party, read: set<nat>)
    requires Unconcerned(w, w', p) && forall i :: i in read ==> i < |w.sent| && w.sent[i].from == Other(p)
    ensures read - w'.cached == read - w.cached
    ensures Listed(w'.sent, read - w'.cached, |w'.sent|) == Listed(w.sent, read - w.cached, |w.sent|)
    ensures forall i :: i in read ==> w'.sent[i] == w.sent[i]
  {
    hide Listed;
    var waiting := read - w.cached;
    assert forall i :: 0 <= i < |w.sent| ==> w'.sent[i] == w.sent[i];
    assert read - w'.cached == waiting;
    ListedBeyond(w'.sent, waiting, |w.sent|, |w'.sent|);
    ListedSame(w.sent, w'.sent, waiting, waiting, |w.sent|);
  }

  lemma {:induction false} EmptyListed(sent: seq<Flight>, n: nat)
    requires n <= |sent|
    ensures Listed(sent, {}, n) == [] && IsTail([], [])
  {
    if n > 0 {
      EmptyListed(sent, n - 1);
    }
  }

  lemma StillPast(w: World, w': World, p: Party, i: nat)
    requires Unconcerned(w, w', p) && ReadPast(w, p, i)
    ensures ReadPast(w', p, i)
  {
    assert forall j :: 0 <= j < |w.sent| ==> w'.sent[j] == w.sent[j];
  }

  /** A held key has few newer ones. */
  lemma HeldWhereFew(w: World, h: History, p: Party, read: set<nat>)
    requires Inv(w, h) && InSession(w, p) && StashOk(w, p, read)
    ensures |SessionOf(w, p).skipped| <= MAX_SKIPPED
    ensures forall i :: i in read - w.cached && Holds(SessionOf(w, p).skipped, w.sent[i].env) ==>
              |Newer(read - w.cached, i)| < MAX_SKIPPED
  {
    PartyStore(w, h, p);
    SentDistinct(w, h, read - w.cached);
    hide Inv, ReadNow, Superseded, Listed, Distinct, Has, IsTail;
    forall i | i in read - w.cached && Holds(SessionOf(w, p).skipped, w.sent[i].env)
      ensures |Newer(read - w.cached, i)| < MAX_SKIPPED
    {
      HeldIff(w.sent, read - w.cached, SessionOf(w, p).skipped, i);
    }
  }

  // ---- opening a stashed envelope ----

  /** `p` opens envelope `i0` with the stashed key. */
  lemma TakenStep(w: World, h: History, p: Party, i0: nat, read: set<nat>)
    requires Inv(w, h) && i0 < |w.sent| && i0 !in w.cached && w.sent[i0].from == Other(p) && StashOk(w, p, read)
    requires InSession(w, p) && Holds(SessionOf(w, p).skipped, w.sent[i0].env)
    ensures var w' := Next(w, DeliverStep(i0));
            StashOk(w', p, read + ReadNow(w', p)) && Carried(w, w', p, read, read + ReadNow(w', p))
  {
    hide Inv, ReadNow, ReadPast, Listed, IsTail, Has, Remove, Next, Unique;
    var w' := Next(w, DeliverStep(i0));
    var r, header := SessionOf(w, p), w.sent[i0].env.header;
    TakenWorld(w, h, p, i0);
    SameReadNow(w, w', p);
    assert read + ReadNow(w', p) == read;
    forall i | i in read ensures ReadPast(w', p, i) {
      SamePast(w, w', p, i);
    }
    var waiting := read - w.cached;
    HeldIsWaiting(w, h, p, read, i0);
    SentDistinct(w, h, waiting);
    PastIsSent(w, p, read);
    assert read - w'.cached == waiting - {i0};
    ListedWithout(w.sent, waiting, i0, |w.sent|);
    ListedUnique(w.sent, waiting, |w.sent|);
    TakeKeepsTail(r.skipped, Listed(w.sent, waiting, |w.sent|), header.ratchetKey, header.messageNumber);
    HeldWhereFew(w, h, p, read);
    PartyStore(w, h, p);
    forall i | i in waiting - {i0}
      ensures Holds(SessionOf(w', p).skipped, w'.sent[i].env)
          <==> Holds(r.skipped, w.sent[i].env) && |Newer(waiting - {i0}, i)| < MAX_SKIPPED
    {
      OthersStay(r.skipped, w.sent[i0].env, w.sent[i].env);
      FewerNewer(waiting, i0, i);
    }
  }

  /** The world after an envelope has been opened with its stashed key. */
  lemma TakenWorld(w: World, h: History, p: Party, i0: nat)
    requires Inv(w, h) && i0 < |w.sent| && i0 !in w.cached && w.sent[i0].from == Other(p)
    requires InSession(w, p) && Holds(SessionOf(w, p).skipped, w.sent[i0].env)
    ensures var w', r, header := Next(w, DeliverStep(i0)), SessionOf(w, p), w.sent[i0].env.header;
            && w'.sent == w.sent && w'.cached == w.cached + {i0} && InSession(w', p)
            && SessionOf(w', p) == r.(skipped := Remove(r.skipped, header.ratchetKey, header.messageNumber))
  {
    hide Inv, Remove, Has, Receive, Next;
    var env, d, r := w.sent[i0].env, DeviceOf(w, p), SessionOf(w, p);
    FlightFacts(w, h, i0);
    StashedKey(w, h, p, i0);
    TakenReceive(d, r, env);
    var r' := r.(skipped := Remove(r.skipped, env.header.ratchetKey, env.header.messageNumber));
    Opening(w, i0, Received(r', d.oneTimePrekeys, env.box.key));
  }

  lemma SameReadNow(w: World, w': World, p: Party)
    requires w'.sent == w.sent && InSession(w, p) && InSession(w', p)
    requires SessionOf(w', p).remoteRatchet == SessionOf(w, p).remoteRatchet
    requires SessionOf(w', p).receiveCount == SessionOf(w, p).receiveCount
    ensures ReadNow(w', p) == ReadNow(w, p)
  {
  }

  lemma SamePast(w: World, w': World, p: Party, i: nat)
    requires w'.sent == w.sent && InSession(w, p) && InSession(w', p)
    requires SessionOf(w', p).remoteRatchet == SessionOf(w, p).remoteRatchet
    requires SessionOf(w', p).receiveCount == SessionOf(w, p).receiveCount
    requires ReadPast(w, p, i)
    ensures ReadPast(w', p, i)
  {
  }

  /** A key the stash holds belongs to an envelope that is waiting. */
  lemma HeldIsWaiting(w: World, h: History, p: Party, read: set<nat>, i: nat)
    requires Inv(w, h) && InSession(w, p) && StashOk(w, p, read) && i < |w.sent|
    requires Holds(SessionOf(w, p).skipped, w.sent[i].env)
    ensures i in read - w.cached
  {
    hide Inv, ReadNow, ReadPast, Listed;
    var s, header := SessionOf(w, p).skipped, w.sent[i].env.header;
    var e := s[Position(s, header.ratchetKey, header.messageNumber)];
    var all := Listed(w.sent, read - w.cached, |w.sent|);
    assert e in s && e in all;
    ListedEntries(w.sent, read - w.cached, |w.sent|);
    var j :| 0 <= j < |w.sent| && j in read - w.cached && e == EntryOf(w.sent[j].env);
    InvParts(w, h);
    SameHeader(w, h, i, j);
  }

  lemma OthersStay(s: Store, taken: Envelope, other: Envelope)
    requires Unique(s)
    requires !Names(EntryOf(taken), other.header.ratchetKey, other.header.messageNumber)
    ensures Holds(Remove(s, taken.header.ratchetKey, taken.header.messageNumber), other) <==> Holds(s, other)
  {
    hide Has, Remove, Unique;
    RemoveFacts(s, taken.header.ratchetKey, taken.header.messageNumber);
    HasIff(s, other.header.ratchetKey, other.header.messageNumber);
    HasIff(Remove(s, taken.header.ratchetKey, taken.header.messageNumber), other.header.ratchetKey, other.header.messageNumber);
  }

  lemma FewerNewer(chosen: set<nat>, j: nat, i: nat)
    ensures |Newer(chosen - {j}, i)| <= |Newer(chosen, i)|
  {
    SubsetSize(Newer(chosen - {j}, i), Newer(chosen, i));
  }

  lemma SubsetSize(a: set<nat>, b: set<nat>)
    requires a <= b
    ensures |a| <= |b|
  {
    assert b == a + (b - a);
  }

  // ---- opening an envelope further on ----

  /** The envelopes of one chain with numbers from `from` up to but not including `target`. */
  function Between(w: World, p: Party, ratchetKey: KeyId, from: nat, target: nat): set<nat> {
    set i | 0 <= i < |w.sent| && w.sent[i].from == Other(p) && w.sent[i].env.header.ratchetKey == ratchetKey
            && from <= w.sent[i].env.header.messageNumber < target
  }

  function StashOf(w: World, p: Party): Store {
    if InSession(w, p) then SessionOf(w, p).skipped else []
  }

  /** `from` is the count at which the chain of envelope `i0` is taken up when it is delivered. */
  predicate TakenUpAt(w: World, h: History, p: Party, i0: nat, from: nat)
    requires i0 < |w.sent| == |h.slots|
  {
    var header := w.sent[i0].env.header;
    && from <= header.messageNumber
    && if InSession(w, p) then
         && !Passed(h, p, SessionOf(w, p), h.slots[i0])
         && from == if SessionOf(w, p).remoteRatchet == Some(header.ratchetKey) then SessionOf(w, p).receiveCount else 0
       else from == 0 == header.messageNumber
  }

  /** `w'` is the world after the receiver has stepped to envelope `i0` and opened it. */
  predicate SkippedTo(w: World, w': World, h: History, p: Party, i0: nat, from: nat)
    requires i0 < |w.sent| == |h.slots| && from <= w.sent[i0].env.header.messageNumber
  {
    var header, c := w.sent[i0].env.header, h.slots[i0].chain;
    && 0 < c < |h.keys|
    && w'.sent == w.sent && w'.cached == w.cached + {i0} && InSession(w', p)
    && SessionOf(w', p).remoteRatchet == Some(header.ratchetKey)
    && SessionOf(w', p).receiveCount == header.messageNumber + 1
    && SessionOf(w', p).skipped
       == StashAll(StashOf(w, p),
                   Skips(header.ratchetKey, ChainAt(StartOf(h.base, h.keys, c), from), from, header.messageNumber))
  }

  /** The world after an envelope ahead of the receiver has been opened. */
  lemma SkippedWorld(w: World, h: History, p: Party, i0: nat) returns (from: nat)
    requires Inv(w, h) && i0 < |w.sent| == |h.slots| && i0 !in w.cached && w.sent[i0].from == Other(p)
    requires Fits(w, h, i0) && !(InSession(w, p) && Holds(SessionOf(w, p).skipped, w.sent[i0].env))
    ensures TakenUpAt(w, h, p, i0, from) && SkippedTo(w, Next(w, DeliverStep(i0)), h, p, i0, from)
  {
    hide Inv, Has, Receive, Next, StashAll, Skips, StartOf, KeyAt, ChainAt, ShapeOk, ConsumePrekey;
    FlightFacts(w, h, i0);
    if !InSession(w, p) {
      from := FirstWorld(w, h, i0);
    } else if h.slots[i0].chain == At(h, p) {
      from := AheadWorld(w, h, p, i0);
    } else {
      from := NewChainWorld(w, h, p, i0);
    }
  }

  lemma AheadWorld(w: World, h: History, p: Party, i0: nat) returns (from: nat)
    requires Inv(w, h) && i0 < |w.sent| == |h.slots| && i0 !in w.cached && w.sent[i0].from == Other(p)
    requires InSession(w, p) && !Holds(SessionOf(w, p).skipped, w.sent[i0].env)
    requires h.slots[i0].chain == At(h, p) && !Passed(h, p, SessionOf(w, p), h.slots[i0])
    ensures TakenUpAt(w, h, p, i0, from) && SkippedTo(w, Next(w, DeliverStep(i0)), h, p, i0, from)
  {
    hide Inv, Has, Receive, Next, StashAll, Skips, StartOf, KeyAt, ChainAt, RootOf;
    var r, env := SessionOf(w, p), w.sent[i0].env;
    FlightFacts(w, h, i0);
    PartyShape(w, h, p);
    SlotOnChain(w, h, p, i0);
    CurrentChain(w, h, p, i0);
    from := r.receiveCount;
    Opening(w, i0, Received(Stepped(r, StartOf(h.base, h.keys, h.slots[i0].chain), h.slots[i0].number),
                            DeviceOf(w, p).oneTimePrekeys, env.box.key));
  }

  lemma NewChainWorld(w: World, h: History, p: Party, i0: nat) returns (from: nat)
    requires Inv(w, h) && i0 < |w.sent| == |h.slots| && i0 !in w.cached && w.sent[i0].from == Other(p)
    requires InSession(w, p) && h.slots[i0].chain > At(h, p)
    ensures TakenUpAt(w, h, p, i0, from) && SkippedTo(w, Next(w, DeliverStep(i0)), h, p, i0, from)
  {
    hide Inv, Has, Receive, Next, StashAll, Skips, StartOf, KeyAt, ChainAt, RootOf, ShapeOk, EnteredRecord;
    var r, env, c := SessionOf(w, p), w.sent[i0].env, h.slots[i0].chain;
    FlightFacts(w, h, i0);
    PartyShape(w, h, p);
    SlotOnChain(w, h, p, i0);
    NewChain(w, h, p, i0);
    EnteredShape(w, h, p, r, h.slots[i0].number);
    from := 0;
    var r0 := EnteredRecord(h, p, r);
    SteppedFields(r0, StartOf(h.base, h.keys, c), h.slots[i0].number);
    SteppedRemote(r0, StartOf(h.base, h.keys, c), h.slots[i0].number);
    Opening(w, i0, Received(Stepped(r0, StartOf(h.base, h.keys, c), h.slots[i0].number),
                            DeviceOf(w, p).oneTimePrekeys, env.box.key));
  }

  lemma SteppedRemote(r: Record, start: ChainKey, n: nat)
    requires r.receiveChain.Some? && r.remoteRatchet.Some? && r.receiveCount <= n
    ensures Stepped(r, start, n).remoteRatchet == r.remoteRatchet
  {
  }

  lemma FirstWorld(w: World, h: History, i0: nat) returns (from: nat)
    requires Inv(w, h) && i0 < |w.sent| == |h.slots| && i0 !in w.cached && w.sent[i0].from == Initiator
    requires !InSession(w, Responder) && h.slots[i0] == Slot(1, 0)
    ensures TakenUpAt(w, h, Responder, i0, from) && SkippedTo(w, Next(w, DeliverStep(i0)), h, Responder, i0, from)
  {
    hide Inv, Receive, Next, StashAll, StartOf, KeyAt, ChainAt, RootOf, ConsumePrekey;
    var d, env := w.responder, w.sent[i0].env;
    FlightFacts(w, h, i0);
    FirstReceive(w, h, i0);
    FirstHeader(w, h, i0);
    from := 0;
    var prekeys := ConsumePrekey(d.oneTimePrekeys, env.header.initialSession.value.oneTimePrekeyId);
    Opening(w, i0, Received(Stepped(EnteredRecord(h, Responder, EmptyRecord(d)), StartOf(h.base, h.keys, 1), 0),
                            prekeys, env.box.key));
  }

  lemma FirstHeader(w: World, h: History, i: nat)
    requires Inv(w, h) && i < |w.sent| == |h.slots| && h.slots[i] == Slot(1, 0)
    ensures 1 < |h.keys| && w.sent[i].env.header.ratchetKey == h.keys[1] && w.sent[i].env.header.messageNumber == 0
  {
    assert FlightOk(h.base, h.keys, h.counts, h.slots[i], w.sent[i]);
    hide KeyAt, StartOf;
  }

  /** The slot of an envelope, from its header. */
  lemma SlotFacts(w: World, h: History, i: nat)
    requires Inv(w, h) && i < |w.sent|
    ensures |w.sent| == |h.slots| && |h.keys| == |h.counts| && 0 < h.slots[i].chain < |h.keys|
    ensures w.sent[i].env.header.messageNumber == h.slots[i].number
    ensures w.sent[i].env.header.ratchetKey == h.keys[h.slots[i].chain]
    ensures w.sent[i].env.box.key == KeyAt(StartOf(h.base, h.keys, h.slots[i].chain), h.slots[i].number)
    ensures w.sent[i].from == OwnerOf(h.slots[i].chain)
  {
    assert FlightOk(h.base, h.keys, h.counts, h.slots[i], w.sent[i]);
    hide KeyAt, StartOf;
  }

  lemma SameKeySlots(w: World, h: History, i: nat, j: nat)
    requires Inv(w, h) && i < |w.sent| == |h.slots| && j < |w.sent|
    ensures w.sent[i].env.header.ratchetKey == w.sent[j].env.header.ratchetKey <==> h.slots[i].chain == h.slots[j].chain
  {
    hide Inv, KeyAt, StartOf;
    SlotFacts(w, h, i);
    SlotFacts(w, h, j);
    SameKeySameChain(w, h, h.slots[i].chain, h.slots[j].chain);
  }

  /** What the receiver has read past is behind every number it is about to step over. */
  lemma PastIsBehind(w: World, h: History, p: Party, i0: nat, from: nat, x: nat)
    requires Inv(w, h) && i0 < |w.sent| == |h.slots| && w.sent[i0].from == Other(p) && TakenUpAt(w, h, p, i0, from)
    requires ReadPast(w, p, x)
    ensures forall m :: from <= m ==> Before(h.slots[x], Slot(h.slots[i0].chain, m))
    ensures h.slots[x].chain == h.slots[i0].chain ==> w.sent[x].env.header.messageNumber < from
  {
    hide Inv, Superseded, KeyAt, StartOf;
    SlotFacts(w, h, x);
    SlotOnChain(w, h, p, i0);
    ReadPastIff(w, h, p, x);
  }

  lemma NotPassedFrom(w: World, h: History, p: Party, i0: nat, from: nat)
    requires Inv(w, h) && i0 < |w.sent| == |h.slots| && w.sent[i0].from == Other(p) && TakenUpAt(w, h, p, i0, from)
    requires InSession(w, p)
    ensures forall m :: from <= m ==> !Passed(h, p, SessionOf(w, p), Slot(h.slots[i0].chain, m))
  {
    hide Inv, Superseded, KeyAt, StartOf;
    SlotOnChain(w, h, p, i0);
  }

  /** The keys stepped over are those of the envelopes in between, in sending order. */
  lemma {:induction false} ListedBetween(w: World, h: History, p: Party, i0: nat, from: nat, chosen: set<nat>, m: nat)
    requires Inv(w, h) && i0 < |w.sent| == |h.slots| && w.sent[i0].from == Other(p) && TakenUpAt(w, h, p, i0, from)
    requires 0 < h.slots[i0].chain < |h.keys|
    requires forall x :: x in chosen ==> ReadPast(w, p, x)
    requires from <= m <= w.sent[i0].env.header.messageNumber
    ensures var key := w.sent[i0].env.header.ratchetKey;
            Listed(w.sent, chosen + Between(w, p, key, from, m), |w.sent|)
            == Listed(w.sent, chosen, |w.sent|) + Skips(key, ChainAt(StartOf(h.base, h.keys, h.slots[i0].chain), from), from, m)
    decreases m
  {
    hide Inv, Listed, StartOf, KeyAt, ChainAt, ReadPast, TakenUpAt;
    var key, c := w.sent[i0].env.header.ratchetKey, h.slots[i0].chain;
    if m == from {
      assert chosen + Between(w, p, key, from, m) == chosen;
    } else {
      ListedBetween(w, h, p, i0, from, chosen, m - 1);
      var j := NextBetween(w, h, p, i0, from, chosen, m - 1);
      var before := chosen + Between(w, p, key, from, m - 1);
      assert chosen + Between(w, p, key, from, m) == before + {j};
      ListedAppend(w.sent, before, j);
    }
  }

  lemma NextBetween(w: World, h: History, p: Party, i0: nat, from: nat, chosen: set<nat>, m: nat) returns (j: nat)
    requires Inv(w, h) && i0 < |w.sent| == |h.slots| && w.sent[i0].from == Other(p) && TakenUpAt(w, h, p, i0, from)
    requires 0 < h.slots[i0].chain < |h.keys|
    requires forall x :: x in chosen ==> ReadPast(w, p, x)
    requires from <= m < w.sent[i0].env.header.messageNumber
    ensures var key := w.sent[i0].env.header.ratchetKey;
            && j < |w.sent| && Between(w, p, key, from, m + 1) == Between(w, p, key, from, m) + {j}
            && (forall x :: x in chosen + Between(w, p, key, from, m) ==> x < j)
            && EntryOf(w.sent[j].env)
               == Entry(key, m, KeyAt(ChainAt(StartOf(h.base, h.keys, h.slots[i0].chain), from), m - from))
  {
    hide Inv, StartOf, KeyAt, ChainAt, ReadPast, TakenUpAt, Between;
    var key, c := w.sent[i0].env.header.ratchetKey, h.slots[i0].chain;
    j := FindBetween(w, h, p, i0, from, m);
    SkipKey(StartOf(h.base, h.keys, c), from, m - from);
    BetweenGrows(w, h, p, key, from, m, j);
    forall x | x in chosen ensures x < j {
      PastSentBefore(w, h, p, i0, from, m, x, j);
    }
    forall x | x in Between(w, p, key, from, m) ensures x < j {
      BetweenSentBefore(w, h, p, i0, from, m, x, j);
    }
  }

  lemma FindBetween(w: World, h: History, p: Party, i0: nat, from: nat, m: nat) returns (j: nat)
    requires Inv(w, h) && i0 < |w.sent| == |h.slots| && w.sent[i0].from == Other(p) && TakenUpAt(w, h, p, i0, from)
    requires from <= m < w.sent[i0].env.header.messageNumber && 0 < h.slots[i0].chain < |h.keys|
    ensures j < |w.sent| && w.sent[j].from == Other(p) && h.slots[j] == Slot(h.slots[i0].chain, m)
    ensures w.sent[j].env.header.ratchetKey == w.sent[i0].env.header.ratchetKey && w.sent[j].env.header.messageNumber == m
    ensures w.sent[j].env.box.key == KeyAt(StartOf(h.base, h.keys, h.slots[i0].chain), m)
  {
    hide Inv, StartOf, KeyAt, Passed;
    SlotFacts(w, h, i0);
    NotPassedFrom(w, h, p, i0, from);
    j := SkippedAwaited(w, h, p, i0, m);
    SlotFacts(w, h, j);
  }

  lemma BetweenGrows(w: World, h: History, p: Party, key: KeyId, from: nat, m: nat, j: nat)
    requires Inv(w, h) && from <= m && j < |w.sent| && w.sent[j].from == Other(p)
    requires w.sent[j].env.header.ratchetKey == key && w.sent[j].env.header.messageNumber == m
    ensures Between(w, p, key, from, m + 1) == Between(w, p, key, from, m) + {j}
  {
    hide Inv;
    InvParts(w, h);
    hide KeysOk, NetOk;
    forall x | x in Between(w, p, key, from, m + 1) && w.sent[x].env.header.messageNumber == m ensures x == j {
      SameHeader(w, h, x, j);
    }
  }

  lemma PastSentBefore(w: World, h: History, p: Party, i0: nat, from: nat, m: nat, x: nat, j: nat)
    requires Inv(w, h) && i0 < |w.sent| == |h.slots| && w.sent[i0].from == Other(p) && TakenUpAt(w, h, p, i0, from)
    requires ReadPast(w, p, x) && from <= m && j < |w.sent| && h.slots[j] == Slot(h.slots[i0].chain, m)
    ensures x < j
  {
    hide Inv, ReadPast, TakenUpAt;
    InvParts(w, h);
    PastIsBehind(w, h, p, i0, from, x);
    PastIsSentOne(w, p, x);
    SlotFacts(w, h, x);
    SlotFacts(w, h, i0);
    SentBefore(w, h, x, j);
  }

  lemma BetweenSentBefore(w: World, h: History, p: Party, i0: nat, from: nat, m: nat, x: nat, j: nat)
    requires Inv(w, h) && i0 < |w.sent| == |h.slots| && w.sent[i0].from == Other(p)
    requires x in Between(w, p, w.sent[i0].env.header.ratchetKey, from, m)
    requires j < |w.sent| && h.slots[j] == Slot(h.slots[i0].chain, m)
    ensures x < j
  {
    hide Inv;
    InvParts(w, h);
    SameKeySlots(w, h, x, i0);
    SlotFacts(w, h, x);
    SentBefore(w, h, x, j);
  }

  lemma PastIsSentOne(w: World, p: Party, x: nat)
    requires ReadPast(w, p, x)
    ensures x < |w.sent| && w.sent[x].from == Other(p) && InSession(w, p)
  {
  }

  /** What is read past, and what waits, after the receiver has stepped to `i0`. */
  lemma ReadAfterSkip(w: World, h: History, w': World, p: Party, i0: nat, from: nat, read: set<nat>)
    requires Inv(w, h) && i0 < |w.sent| == |h.slots| && i0 !in w.cached && w.sent[i0].from == Other(p)
    requires StashOk(w, p, read) && TakenUpAt(w, h, p, i0, from) && SkippedTo(w, w', h, p, i0, from)
    ensures var key, n := w.sent[i0].env.header.ratchetKey, w.sent[i0].env.header.messageNumber;
            && read + ReadNow(w', p) == read + Between(w, p, key, from, n + 1)
            && read + ReadNow(w', p) - w'.cached == read - w.cached + Between(w, p, key, from, n)
  {
    hide Inv, StashAll, Skips, StartOf, KeyAt, ChainAt, ReadPast, IsTail, Listed, Passed;
    var key, n := w.sent[i0].env.header.ratchetKey, w.sent[i0].env.header.messageNumber;
    forall i | i in ReadNow(w', p) ensures i in read + Between(w, p, key, from, n + 1) {
      if i !in Between(w, p, key, from, n + 1) {
        assert i in ReadNow(w, p);
      }
    }
    assert read + ReadNow(w', p) == read + Between(w, p, key, from, n + 1);
    forall i | i in read ensures i != i0 {
      if i == i0 {
        NotBehindItself(w, h, p, i0, from);
      }
    }
    forall i | i in Between(w, p, key, from, n + 1) ensures i !in w.cached && (i == i0 <==> w.sent[i].env.header.messageNumber == n) {
      BetweenIsUnopened(w, h, p, i0, from, i);
    }
    assert read + ReadNow(w', p) - w'.cached == read - w.cached + Between(w, p, key, from, n);
  }

  lemma NotBehindItself(w: World, h: History, p: Party, i0: nat, from: nat)
    requires Inv(w, h) && i0 < |w.sent| == |h.slots| && w.sent[i0].from == Other(p) && TakenUpAt(w, h, p, i0, from)
    ensures !ReadPast(w, p, i0)
  {
    hide Inv, Passed, Superseded;
    if InSession(w, p) {
      ReadPastIff(w, h, p, i0);
    }
  }

  /** Nothing from the count on has been opened. */
  lemma BetweenIsUnopened(w: World, h: History, p: Party, i0: nat, from: nat, i: nat)
    requires Inv(w, h) && i0 < |w.sent| == |h.slots| && w.sent[i0].from == Other(p) && TakenUpAt(w, h, p, i0, from)
    requires i in Between(w, p, w.sent[i0].env.header.ratchetKey, from, w.sent[i0].env.header.messageNumber + 1)
    ensures i !in w.cached
    ensures i == i0 <==> w.sent[i].env.header.messageNumber == w.sent[i0].env.header.messageNumber
  {
    hide Inv, Passed, KeyAt, StartOf;
    InvParts(w, h);
    if w.sent[i].env.header.messageNumber == w.sent[i0].env.header.messageNumber {
      SameHeader(w, h, i, i0);
    }
    SlotFacts(w, h, i);
    SameKeySlots(w, h, i, i0);
    assert i in w.cached ==> InSession(w, p) && Passed(h, p, SessionOf(w, p), h.slots[i]);
    if InSession(w, p) {
      NotPassedFrom(w, h, p, i0, from);
    }
  }

  lemma PastAfterSkip(w: World, h: History, w': World, p: Party, i0: nat, from: nat, i: nat)
    requires Inv(w, h) && i0 < |w.sent| == |h.slots| && w.sent[i0].from == Other(p)
    requires TakenUpAt(w, h, p, i0, from) && SkippedTo(w, w', h, p, i0, from)
    requires ReadPast(w, p, i)
             || i in Between(w, p, w.sent[i0].env.header.ratchetKey, from, w.sent[i0].env.header.messageNumber + 1)
    ensures ReadPast(w', p, i)
  {
    hide Inv, StashAll, Skips, StartOf, KeyAt, ChainAt, Passed;
    if ReadPast(w, p, i) {
      PastIsSentOne(w, p, i);
      PastIsBehind(w, h, p, i0, from, i);
      SameKeySlots(w, h, i, i0);
      if w.sent[i].env.header.ratchetKey != w.sent[i0].env.header.ratchetKey {
        SlotFacts(w, h, i0);
        PastSentBefore(w, h, p, i0, from, w.sent[i0].env.header.messageNumber, i, i0);
        assert Superseded(w', i, SessionOf(w', p));
      }
    }
  }

  lemma SkippedTail(w: World, h: History, w': World, p: Party, i0: nat, from: nat, read: set<nat>)
    requires Inv(w, h) && i0 < |w.sent| == |h.slots| && i0 !in w.cached && w.sent[i0].from == Other(p)
    requires StashOk(w, p, read) && TakenUpAt(w, h, p, i0, from) && SkippedTo(w, w', h, p, i0, from)
    ensures var waiting, key, n := read - w.cached, w.sent[i0].env.header.ratchetKey, w.sent[i0].env.header.messageNumber;
            var skips := Skips(key, ChainAt(StartOf(h.base, h.keys, h.slots[i0].chain), from), from, n);
            && Listed(w.sent, waiting + Between(w, p, key, from, n), |w.sent|) == Listed(w.sent, waiting, |w.sent|) + skips
            && |StashOf(w, p)| <= MAX_SKIPPED && IsTail(StashOf(w, p), Listed(w.sent, waiting, |w.sent|))
            && SessionOf(w', p).skipped == Newest(StashOf(w, p) + skips)
            && IsTail(SessionOf(w', p).skipped, Listed(w.sent, waiting + Between(w, p, key, from, n), |w.sent|))
  {
    hide Inv, Skips, StartOf, KeyAt, ChainAt, ReadPast, Listed, StashAll, Newest, IsTail, Unique, Between, ReadNow;
    var waiting, key, n := read - w.cached, w.sent[i0].env.header.ratchetKey, w.sent[i0].env.header.messageNumber;
    var skips := Skips(key, ChainAt(StartOf(h.base, h.keys, h.slots[i0].chain), from), from, n);
    ListedBetween(w, h, p, i0, from, waiting, n);
    SentDistinct(w, h, waiting + Between(w, p, key, from, n));
    ListedUnique(w.sent, waiting + Between(w, p, key, from, n), |w.sent|);
    if InSession(w, p) {
      PartyStore(w, h, p);
    } else {
      PastIsSent(w, p, read);
      assert waiting == {};
      EmptyListed(w.sent, |w.sent|);
    }
    StashOntoTail(StashOf(w, p), Listed(w.sent, waiting, |w.sent|), skips);
  }

  /** Stashing new names onto a tail of a list leaves a tail of the longer list. */
  lemma StashOntoTail(s: Store, all: Store, es: Store)
    requires |s| <= MAX_SKIPPED && IsTail(s, all) && Unique(all + es)
    ensures StashAll(s, es) == Newest(s + es) && IsTail(Newest(s + es), all + es)
  {
    hide StashAll, Unique, IsTail;
    var o := |all| - |s|;
    TailSplit(s, all);
    UniqueTail(all[..o], s, es);
    StashAllNewest(s, es);
    NewestTail(all[..o], s, es);
  }

  lemma TailSplit(s: Store, all: Store)
    requires IsTail(s, all)
    ensures |s| <= |all| && all == all[..|all| - |s|] + s
  {
  }

  lemma UniqueTail(front: Store, s: Store, es: Store)
    requires Unique(front + s + es)
    ensures Unique(s + es)
  {
    var o := |front|;
    forall i, j | 0 <= i < j < |s + es| ensures !Names((s + es)[j], (s + es)[i].ratchetKey, (s + es)[i].number) {
      assert (s + es)[i] == (front + s + es)[o + i] && (s + es)[j] == (front + s + es)[o + j];
    }
  }

  lemma NewestTail(front: Store, s: Store, es: Store)
    ensures IsTail(Newest(s + es), front + s + es)
  {
    var r := Newest(s + es);
    assert front + s + es == front + (s + es);
    assert r == (front + s + es)[|front + s + es| - |r|..];
  }

  /** `p` opens an envelope ahead of it. */
  lemma SkippingStep(w: World, h: History, p: Party, i0: nat, read: set<nat>)
    requires Inv(w, h) && i0 < |w.sent| == |h.slots| && i0 !in w.cached && w.sent[i0].from == Other(p)
    requires StashOk(w, p, read) && Fits(w, h, i0)
    requires !(InSession(w, p) && Holds(SessionOf(w, p).skipped, w.sent[i0].env))
    ensures var w' := Next(w, DeliverStep(i0));
            StashOk(w', p, read + ReadNow(w', p)) && Carried(w, w', p, read, read + ReadNow(w', p))
  {
    hide Inv, ReadNow, ReadPast, Listed, IsTail, Has, Next, Unique, Newest, Skips, Between, Fits, Passed, SkippedTo,
         StartOf, KeyAt, ChainAt, Carried;
    var w' := Next(w, DeliverStep(i0));
    var from := SkippedWorld(w, h, p, i0);
    SkippedFields(w, w', h, p, i0, from);
    ReadAfterSkip(w, h, w', p, i0, from, read);
    SkippedTail(w, h, w', p, i0, from, read);
    forall i | i in read + ReadNow(w', p) ensures ReadPast(w', p, i) {
      PastAfterSkip(w, h, w', p, i0, from, i);
    }
    SkippedCarries(w, h, w', p, i0, from, read);
  }

  lemma SkippedFields(w: World, w': World, h: History, p: Party, i0: nat, from: nat)
    requires i0 < |w.sent| == |h.slots| && from <= w.sent[i0].env.header.messageNumber && SkippedTo(w, w', h, p, i0, from)
    ensures w'.sent == w.sent && InSession(w', p)
  {
    hide StashAll, Skips;
  }

  /** The list of what waits ends with the new keys, so the newest are held. */
  lemma SkippedCarries(w: World, h: History, w': World, p: Party, i0: nat, from: nat, read: set<nat>)
    requires Inv(w, h) && i0 < |w.sent| == |h.slots| && i0 !in w.cached && w.sent[i0].from == Other(p)
    requires StashOk(w, p, read) && TakenUpAt(w, h, p, i0, from) && SkippedTo(w, w', h, p, i0, from)
    ensures Carried(w, w', p, read, read + ReadNow(w', p))
  {
    hide Inv, ReadNow, ReadPast, Listed, IsTail, Has, Unique, Newest, Skips, StartOf, KeyAt, ChainAt, StashAll, TakenUpAt, Between,
         Distinct, Newer, StashOk;
    var waiting, key, n := read - w.cached, w.sent[i0].env.header.ratchetKey, w.sent[i0].env.header.messageNumber;
    var more := Between(w, p, key, from, n);
    var all := waiting + more;
    ReadAfterSkip(w, h, w', p, i0, from, read);
    SkippedTail(w, h, w', p, i0, from, read);
    SentDistinct(w, h, all);
    SentDistinct(w, h, waiting);
    WaitingIsSent(w, p, read, key, from, n);
    forall i | i in all
      ensures Holds(SessionOf(w', p).skipped, w.sent[i].env)
         <==> (i in waiting && InSession(w, p) ==> Holds(SessionOf(w, p).skipped, w.sent[i].env)) && |Newer(all, i)| < MAX_SKIPPED
    {
      HeldAfterSkip(w, h, w', p, i0, from, read, i);
    }
  }

  lemma WaitingIsSent(w: World, p: Party, read: set<nat>, key: KeyId, from: nat, n: nat)
    requires StashOk(w, p, read)
    ensures forall i :: i in read ==> i < |w.sent| && w.sent[i].from == Other(p) && InSession(w, p) && ReadPast(w, p, i)
    ensures forall i :: i in Between(w, p, key, from, n) ==> i < |w.sent| && w.sent[i].from == Other(p)
  {
    hide ReadNow, Listed, IsTail, Superseded;
  }

  lemma HeldAfterSkip(w: World, h: History, w': World, p: Party, i0: nat, from: nat, read: set<nat>, i: nat)
    requires Inv(w, h) && i0 < |w.sent| == |h.slots| && i0 !in w.cached && w.sent[i0].from == Other(p)
    requires StashOk(w, p, read) && TakenUpAt(w, h, p, i0, from) && SkippedTo(w, w', h, p, i0, from)
    requires i in read - w.cached + Between(w, p, w.sent[i0].env.header.ratchetKey, from, w.sent[i0].env.header.messageNumber)
    ensures var waiting := read - w.cached;
            var all := waiting + Between(w, p, w.sent[i0].env.header.ratchetKey, from, w.sent[i0].env.header.messageNumber);
            && i < |w.sent|
            && (Holds(SessionOf(w', p).skipped, w.sent[i].env)
                <==> (i in waiting && InSession(w, p) ==> Holds(SessionOf(w, p).skipped, w.sent[i].env))
                     && |Newer(all, i)| < MAX_SKIPPED)
  {
    hide Inv, ReadNow, ReadPast, Listed, IsTail, Has, Unique, Skips, StartOf, KeyAt, ChainAt, StashAll, TakenUpAt, Between,
         Distinct, Newer, StashOk, Holds;
    var waiting, key, n := read - w.cached, w.sent[i0].env.header.ratchetKey, w.sent[i0].env.header.messageNumber;
    var all := waiting + Between(w, p, key, from, n);
    WaitingIsSent(w, p, read, key, from, n);
    SkippedTail(w, h, w', p, i0, from, read);
    SentDistinct(w, h, all);
    SentDistinct(w, h, waiting);
    HeldIff(w.sent, all, SessionOf(w', p).skipped, i);
    CountsAfterSkip(w, h, p, i0, from, read, i);
    if i in waiting {
      HeldIff(w.sent, waiting, SessionOf(w, p).skipped, i);
    }
  }

  /** How many newer ones an envelope has before and after the new ones have joined. */
  lemma CountsAfterSkip(w: World, h: History, p: Party, i0: nat, from: nat, read: set<nat>, i: nat)
    requires Inv(w, h) && i0 < |w.sent| == |h.slots| && i0 !in w.cached && w.sent[i0].from == Other(p)
    requires StashOk(w, p, read) && TakenUpAt(w, h, p, i0, from) && 0 < h.slots[i0].chain < |h.keys|
    requires i in read - w.cached + Between(w, p, w.sent[i0].env.header.ratchetKey, from, w.sent[i0].env.header.messageNumber)
    ensures var waiting, key, n := read - w.cached, w.sent[i0].env.header.ratchetKey, w.sent[i0].env.header.messageNumber;
            var all, skips := waiting + Between(w, p, key, from, n),
                              Skips(key, ChainAt(StartOf(h.base, h.keys, h.slots[i0].chain), from), from, n);
            && (i in waiting ==> |Newer(all, i)| == |Newer(waiting, i)| + |skips|)
            && (i !in waiting ==> |Newer(all, i)| < |skips|)
  {
    hide Inv, ReadNow, ReadPast, Superseded, IsTail, Skips, StartOf, KeyAt, ChainAt, Between, Passed, Listed;
    var waiting, key, n := read - w.cached, w.sent[i0].env.header.ratchetKey, w.sent[i0].env.header.messageNumber;
    var more := Between(w, p, key, from, n);
    var all := waiting + more;
    ListedBetween(w, h, p, i0, from, waiting, n);
    WaitingIsSent(w, p, read, key, from, n);
    ListedLength(w.sent, all, |w.sent|);
    ListedLength(w.sent, waiting, |w.sent|);
    assert Below(all, |w.sent|) == all && Below(waiting, |w.sent|) == waiting;
    forall x, y | x in waiting && y in more ensures x < y {
      WaitingBefore(w, h, p, i0, from, x, y);
    }
    NewerInParts(waiting, more, i);
  }

  lemma WaitingBefore(w: World, h: History, p: Party, i0: nat, from: nat, x: nat, y: nat)
    requires Inv(w, h) && i0 < |w.sent| == |h.slots| && w.sent[i0].from == Other(p) && TakenUpAt(w, h, p, i0, from)
    requires ReadPast(w, p, x)
    requires y in Between(w, p, w.sent[i0].env.header.ratchetKey, from, w.sent[i0].env.header.messageNumber)
    ensures x < y
  {
    hide Inv, TakenUpAt, ReadPast;
    SlotFacts(w, h, y);
    SameKeySlots(w, h, y, i0);
    PastSentBefore(w, h, p, i0, from, w.sent[y].env.header.messageNumber, x, y);
  }

  lemma NewerInParts(a: set<nat>, b: set<nat>, i: nat)
    requires forall x, y :: x in a && y in b ==> x < y
    ensures |a + b| == |a| + |b|
    ensures i in a ==> |Newer(a + b, i)| == |Newer(a, i)| + |b|
    ensures i in b ==> |Newer(a + b, i)| < |b|
  {
    assert a !! b;
    if i in a {
      assert Newer(a + b, i) == Newer(a, i) + b && Newer(a, i) !! b;
    }
    if i in b {
      assert Newer(a + b, i) <= b - {i};
      SubsetSize(Newer(a + b, i), b - {i});
    }
  }

  // ---- over a whole run ----

  /** What `p` has read past at some point of the first `k` steps. */
  function ReadSoFar(w0: World, steps: seq<Step>, k: nat, p: Party): set<nat>
    requires k <= |steps|
  {
    (if k == 0 then {} else ReadSoFar(w0, steps, k - 1, p)) + ReadNow(After(w0, steps, k), p)
  }

  /** What `p` has read past and not opened. */
  function Waiting(w0: World, steps: seq<Step>, k: nat, p: Party): set<nat>
    requires k <= |steps|
  {
    ReadSoFar(w0, steps, k, p) - After(w0, steps, k).cached
  }

  /** At some point `MAX_SKIPPED` envelopes sent after `i` were waiting together with it. */
  predicate PushedOut(w0: World, steps: seq<Step>, k: nat, p: Party, i: nat)
    requires k <= |steps|
  {
    || (k > 0 && PushedOut(w0, steps, k - 1, p, i))
    || (i in Waiting(w0, steps, k, p) && |Newer(Waiting(w0, steps, k, p), i)| >= MAX_SKIPPED)
  }

  /** One step, whoever takes it. */
  lemma StashStep(w: World, h: History, w': World, h': History, s: Step, p: Party, read: set<nat>)
    requires Inv(w, h) && Enabled(w, s) && w' == Next(w, s) && Inv(w', h') && StashOk(w, p, read)
    ensures StashOk(w', p, read + ReadNow(w', p)) && Carried(w, w', p, read, read + ReadNow(w', p))
    ensures w.cached <= w'.cached
  {
    hide Inv, StashOk, Carried, ReadNow, Has, Fits;
    if s.DeliverStep? && w.sent[s.i].from == Other(p) {
      FlightFacts(w, h, s.i);
      var _ := DeliverKeeps(w, h, s.i);
      if !Fits(w, h, s.i) {
        FailedDelivery(w, h, s.i);
        SameIsUnconcerned(w, p);
        UnconcernedStep(w, h, w', h', p, read);
      } else if InSession(w, p) && Holds(SessionOf(w, p).skipped, w.sent[s.i].env) {
        TakenStep(w, h, p, s.i, read);
        TakenWorld(w, h, p, s.i);
      } else {
        SkippingStep(w, h, p, s.i, read);
        var from := SkippedWorld(w, h, p, s.i);
      }
    } else {
      OthersUnconcerned(w, h, s, p);
      UnconcernedStep(w, h, w', h', p, read);
    }
  }

  lemma SameIsUnconcerned(w: World, p: Party)
    requires InSession(w, p) || p == Responder
    ensures Unconcerned(w, w, p)
  {
  }

  lemma OthersUnconcerned(w: World, h: History, s: Step, p: Party)
    requires Inv(w, h) && Enabled(w, s) && !(s.DeliverStep? && w.sent[s.i].from == Other(p))
    ensures Unconcerned(w, Next(w, s), p) && w.cached <= Next(w, s).cached
  {
    hide Inv, Unconcerned, Next;
    match s
    case SendStep(from, b, ratchet, ephemeral, content) => SendUnconcerned(w, s, p);
    case DeliverStep(i) => DeliverUnconcerned(w, h, i, p);
    case PrekeyStep(owner, id, key) => PrekeyUnconcerned(w, s, p);
  }

  lemma SendUnconcerned(w: World, s: Step, p: Party)
    requires Enabled(w, s) && s.SendStep?
    ensures Unconcerned(w, Next(w, s), p) && w.cached == Next(w, s).cached
  {
  }

  lemma DeliverUnconcerned(w: World, h: History, i: nat, p: Party)
    requires Inv(w, h) && i < |w.sent| && i !in w.cached && w.sent[i].from == p
    ensures Unconcerned(w, Next(w, DeliverStep(i)), p) && w.cached <= Next(w, DeliverStep(i)).cached
  {
    hide Inv, Receive;
    FlightFacts(w, h, i);
  }

  lemma PrekeyUnconcerned(w: World, s: Step, p: Party)
    requires Enabled(w, s) && s.PrekeyStep?
    ensures Unconcerned(w, Next(w, s), p) && w.cached == Next(w, s).cached
  {
  }

  lemma {:induction false} StashOverRuns(w0: World, steps: seq<Step>, k: nat, p: Party)
    requires k <= |steps| && IsRun(w0, steps, k)
    ensures StashOk(After(w0, steps, k), p, ReadSoFar(w0, steps, k, p))
  {
    hide Inv, StashOk, ReadNow, Next, Enabled;
    if k == 0 {
      NothingRead(w0, p);
    } else {
      StashOverRuns(w0, steps, k - 1, p);
      RunStep(w0, steps, k - 1, p);
    }
  }

  lemma NothingRead(w: World, p: Party)
    requires Start(w)
    ensures ReadNow(w, p) == {} && StashOk(w, p, {} + ReadNow(w, p))
  {
    assert p == Initiator || p == Responder;
  }

  lemma RunStep(w0: World, steps: seq<Step>, k: nat, p: Party)
    requires k < |steps| && IsRun(w0, steps, k + 1) && StashOk(After(w0, steps, k), p, ReadSoFar(w0, steps, k, p))
    ensures StashOk(After(w0, steps, k + 1), p, ReadSoFar(w0, steps, k + 1, p))
    ensures Carried(After(w0, steps, k), After(w0, steps, k + 1), p, ReadSoFar(w0, steps, k, p), ReadSoFar(w0, steps, k + 1, p))
    ensures After(w0, steps, k).cached <= After(w0, steps, k + 1).cached
  {
    hide Inv, StashOk, ReadNow, Next, Enabled, Carried;
    var h := RunInv(w0, steps, k);
    var h' := RunInv(w0, steps, k + 1);
    StashStep(After(w0, steps, k), h, After(w0, steps, k + 1), h', steps[k], p, ReadSoFar(w0, steps, k, p));
  }

  /** In every reachable state the stash is the newest part of what waits, in sending order. */
  lemma StashIsTail(w0: World, steps: seq<Step>, k: nat, p: Party)
    requires k <= |steps| && IsRun(w0, steps, k) && InSession(After(w0, steps, k), p)
    ensures var w := After(w0, steps, k);
            && |SessionOf(w, p).skipped| <= MAX_SKIPPED
            && IsTail(SessionOf(w, p).skipped, Listed(w.sent, Waiting(w0, steps, k, p), |w.sent|))
  {
    hide Inv, IsTail, Listed, ReadNow, ReadPast;
    StashOverRuns(w0, steps, k, p);
    var h := RunInv(w0, steps, k);
    PartyStore(After(w0, steps, k), h, p);
  }

  /** In every reachable state the stash holds the key of an envelope exactly when the envelope
      was read past, has not been opened, and was never pushed out by newer ones. */
  lemma {:induction false} StashedExactly(w0: World, steps: seq<Step>, k: nat, p: Party, i: nat)
    requires k <= |steps| && IsRun(w0, steps, k) && InSession(After(w0, steps, k), p) && i < |After(w0, steps, k).sent|
    ensures Holds(SessionOf(After(w0, steps, k), p).skipped, After(w0, steps, k).sent[i].env)
       <==> i in Waiting(w0, steps, k, p) && !PushedOut(w0, steps, k, p, i)
  {
    hide Inv, Holds, StashOk, ReadNow, Next, Enabled, Newer, IsRun;
    StashOverRuns(w0, steps, k, p);
    var h := RunInv(w0, steps, k);
    if Holds(SessionOf(After(w0, steps, k), p).skipped, After(w0, steps, k).sent[i].env) {
      HeldIsWaiting(After(w0, steps, k), h, p, ReadSoFar(w0, steps, k, p), i);
    }
    if i in Waiting(w0, steps, k, p) {
      WaitingHeld(w0, steps, k, p, i);
    }
  }

  lemma {:induction false} WaitingHeld(w0: World, steps: seq<Step>, k: nat, p: Party, i: nat)
    requires k <= |steps| && IsRun(w0, steps, k) && i in Waiting(w0, steps, k, p)
    ensures i < |After(w0, steps, k).sent| && InSession(After(w0, steps, k), p)
    ensures Holds(SessionOf(After(w0, steps, k), p).skipped, After(w0, steps, k).sent[i].env)
       <==> !PushedOut(w0, steps, k, p, i)
  {
    hide Inv, Holds, StashOk, ReadNow, Next, Enabled, Newer;
    StashOverRuns(w0, steps, k, p);
    PastIsSent(After(w0, steps, k), p, ReadSoFar(w0, steps, k, p));
    if k == 0 {
      NothingRead(w0, p);
    } else {
      StashOverRuns(w0, steps, k - 1, p);
      PastIsSent(After(w0, steps, k - 1), p, ReadSoFar(w0, steps, k - 1, p));
      RunStep(w0, steps, k - 1, p);
      if i in Waiting(w0, steps, k - 1, p) {
        WaitingHeld(w0, steps, k - 1, p, i);
      } else {
        NeverWaited(w0, steps, k - 1, p, i);
      }
    }
  }

  /** Only what has waited can have been pushed out, and what stops waiting has been opened. */
  lemma {:induction false} NeverWaited(w0: World, steps: seq<Step>, k: nat, p: Party, i: nat)
    requires k <= |steps| && IsRun(w0, steps, k)
    ensures PushedOut(w0, steps, k, p, i) ==> i in ReadSoFar(w0, steps, k, p)
  {
    hide ReadNow, Newer, Next, Enabled;
    if k > 0 {
      NeverWaited(w0, steps, k - 1, p, i);
    }
  }

  /** A late message of a superseded chain opens if and only if the receiver had read past its
      number before it left the chain and its key has not been pushed out by `MAX_SKIPPED` newer
      ones since. */
  lemma LateMessageExactly(w0: World, steps: seq<Step>, k: nat, i: nat)
    requires k <= |steps| && IsRun(w0, steps, k)
    requires i < |After(w0, steps, k).sent| && i !in After(w0, steps, k).cached
    requires var w := After(w0, steps, k);
             InSession(w, Other(w.sent[i].from)) && Superseded(w, i, SessionOf(w, Other(w.sent[i].from)))
    ensures var w := After(w0, steps, k);
            var p := Other(w.sent[i].from);
            Decrypt(DeviceOf(w, p), w.sent[i].env).Ok?
            <==> i in ReadSoFar(w0, steps, k, p) && !PushedOut(w0, steps, k, p, i)
  {
    hide Decrypt, Has, PushedOut, ReadSoFar, After, IsRun, Superseded;
    LateMessage(w0, steps, k, i);
    StashedExactly(w0, steps, k, Other(After(w0, steps, k).sent[i].from), i);
  }
}
