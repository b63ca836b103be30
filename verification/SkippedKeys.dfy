/** The store of message keys skipped over while a receiver catches up with a sender.

    The source keeps it as a plain object whose keys stay in insertion order, so the model
    is a sequence of entries; `MAX_SKIPPED` is the bound applied when a key is stashed. */
module SkippedKeys {
  import opened Options
  import opened KeySchedule

  const MAX_SKIPPED: nat := 64

  datatype Entry = Entry(ratchetKey: KeyId, number: nat, key: MessageKey)

  type Store = seq<Entry>

  predicate Names(e: Entry, ratchetKey: KeyId, number: nat) {
    e.ratchetKey == ratchetKey && e.number == number
  }

  /** No two entries have the same property name. */
  predicate Unique(s: Store) {
    forall i, j :: 0 <= i < j < |s| ==> !Names(s[j], s[i].ratchetKey, s[i].number)
  }

  /** The position of an entry, or the length of the store when there is none. */
  function Position(s: Store, ratchetKey: KeyId, number: nat): (p: nat)
    ensures p <= |s|
    ensures p < |s| ==> Names(s[p], ratchetKey, number)
    ensures forall i :: 0 <= i < p ==> !Names(s[i], ratchetKey, number)
  {
    if s == [] then 0
    else if Names(s[0], ratchetKey, number) then 0
    else
      assert forall i :: 0 <= i < |s[1..]| ==> s[1..][i] == s[i + 1];
      1 + Position(s[1..], ratchetKey, number)
  }

  predicate Has(s: Store, ratchetKey: KeyId, number: nat) {
    Position(s, ratchetKey, number) < |s|
  }

  function Lookup(s: Store, ratchetKey: KeyId, number: nat): Option<MessageKey> {
    var p := Position(s, ratchetKey, number);
    if p < |s| then Some(s[p].key) else None
  }

  function Remove(s: Store, ratchetKey: KeyId, number: nat): Store {
    var p := Position(s, ratchetKey, number);
    if p < |s| then s[..p] + s[p + 1..] else s
  }

  /** The newest `MAX_SKIPPED` entries. */
  function Newest(s: Store): (r: Store)
    ensures |r| <= MAX_SKIPPED && |r| <= |s|
    ensures r == s[|s| - |r|..]
    ensures |s| <= MAX_SKIPPED ==> r == s
    ensures |s| > MAX_SKIPPED ==> |r| == MAX_SKIPPED
  {
    if |s| > MAX_SKIPPED then s[|s| - MAX_SKIPPED..] else s
  }

  /** Assigning a property of the object: an existing name keeps its place in the order. */
  function Assign(s: Store, e: Entry): Store {
    var p := Position(s, e.ratchetKey, e.number);
    if p < |s| then s[p := e] else s + [e]
  }

  /** Stashing one key: assign it, then drop the oldest entries over the bound. */
  function Stash(s: Store, e: Entry): Store {
    Newest(Assign(s, e))
  }

  /** The entries stashed while a chain moves from count `from` to count `target`. */
  function Skips(ratchetKey: KeyId, chain: ChainKey, from: nat, target: nat): Store
    requires from <= target
    decreases target
  {
    if from == target then []
    else Skips(ratchetKey, chain, from, target - 1) + [Entry(ratchetKey, target - 1, KeyAt(chain, target - 1 - from))]
  }

  lemma {:induction false} SkipsEntries(ratchetKey: KeyId, chain: ChainKey, from: nat, target: nat)
    requires from <= target
    ensures |Skips(ratchetKey, chain, from, target)| == target - from
    ensures forall i :: 0 <= i < target - from ==>
              Skips(ratchetKey, chain, from, target)[i] == Entry(ratchetKey, from + i, KeyAt(chain, i))
    decreases target
  {
    if from < target {
      SkipsEntries(ratchetKey, chain, from, target - 1);
    }
  }

  /** Stashing several keys one after another. */
  function StashAll(s: Store, es: Store): Store {
    if es == [] then s else Stash(StashAll(s, es[..|es| - 1]), es[|es| - 1])
  }

  lemma StashAllMore(s: Store, es: Store, e: Entry)
    ensures StashAll(s, es + [e]) == Stash(StashAll(s, es), e)
  {
  }

  lemma HasIff(s: Store, ratchetKey: KeyId, n: nat)
    ensures Has(s, ratchetKey, n) <==> exists e :: e in s && Names(e, ratchetKey, n)
  {
  }

  lemma FoundAt(s: Store, p: nat, ratchetKey: KeyId, n: nat)
    requires p < |s| && Names(s[p], ratchetKey, n)
    requires forall i :: 0 <= i < p ==> !Names(s[i], ratchetKey, n)
    ensures Position(s, ratchetKey, n) == p
  {
  }

  lemma RemoveFromFront(s: Store, tail: Store, ratchetKey: KeyId, n: nat)
    requires Has(s, ratchetKey, n)
    ensures Has(s + tail, ratchetKey, n)
    ensures Lookup(s + tail, ratchetKey, n) == Lookup(s, ratchetKey, n)
    ensures Remove(s + tail, ratchetKey, n) == Remove(s, ratchetKey, n) + tail
  {
    var p := Position(s, ratchetKey, n);
    FoundAt(s + tail, p, ratchetKey, n);
    assert (s + tail)[..p] == s[..p] && (s + tail)[p + 1..] == s[p + 1..] + tail;
  }

  lemma RemoveLast(s: Store, e: Entry)
    requires !Has(s, e.ratchetKey, e.number)
    ensures Has(s + [e], e.ratchetKey, e.number)
    ensures Lookup(s + [e], e.ratchetKey, e.number) == Some(e.key)
    ensures Remove(s + [e], e.ratchetKey, e.number) == s
  {
    FoundAt(s + [e], |s|, e.ratchetKey, e.number);
  }

  lemma {:induction false} StashAllAvoids(s: Store, es: Store, ratchetKey: KeyId, n: nat)
    requires forall e :: e in s || e in es ==> !Names(e, ratchetKey, n)
    ensures forall e :: e in StashAll(s, es) ==> !Names(e, ratchetKey, n)
  {
    if es != [] {
      var init, last := es[..|es| - 1], es[|es| - 1];
      StashAllAvoids(s, init, ratchetKey, n);
      assert last in es;
      var updated := Assign(StashAll(s, init), last);
      forall e | e in updated ensures !Names(e, ratchetKey, n) {
        assert e == last || e in StashAll(s, init);
      }
    }
  }

  lemma NewestOfNewest(s: Store, t: Store)
    ensures Newest(Newest(s) + t) == Newest(s + t)
  {
    var kept := Newest(s);
    assert s == s[..|s| - |kept|] + kept;
    assert s + t == s[..|s| - |kept|] + (kept + t);
  }

  lemma NotAmongNewest(t: Store, e: Entry)
    requires Unique(t + [e])
    ensures Unique(t) && !Has(Newest(t), e.ratchetKey, e.number)
  {
    assert forall i :: 0 <= i < |t| ==> (t + [e])[i] == t[i];
    assert (t + [e])[|t|] == e;
  }

  lemma StashedNew(s: Store, e: Entry)
    requires !Has(s, e.ratchetKey, e.number)
    ensures Stash(s, e) == Newest(s + [e])
  {
  }

  /** Stashing keys with new names leaves the newest `MAX_SKIPPED` of the old and new keys. */
  lemma {:induction false} StashAllNewest(s: Store, es: Store)
    requires |s| <= MAX_SKIPPED
    requires Unique(s + es)
    ensures StashAll(s, es) == Newest(s + es)
    decreases |es|
  {
    if es == [] {
      assert s + es == s;
    } else {
      hide Unique, Has, Stash;
      var init, last := es[..|es| - 1], es[|es| - 1];
      assert s + es == (s + init) + [last];
      NotAmongNewest(s + init, last);
      StashAllNewest(s, init);
      StashedNew(Newest(s + init), last);
      NewestOfNewest(s + init, [last]);
    }
  }

  /** Taking a key removes that name and nothing else. */
  lemma RemoveFacts(s: Store, ratchetKey: KeyId, number: nat)
    requires Unique(s)
    ensures Unique(Remove(s, ratchetKey, number))
    ensures !Has(Remove(s, ratchetKey, number), ratchetKey, number)
    ensures forall e :: e in Remove(s, ratchetKey, number) <==> e in s && !Names(e, ratchetKey, number)
    ensures |Remove(s, ratchetKey, number)| == if Has(s, ratchetKey, number) then |s| - 1 else |s|
  {
    var p := Position(s, ratchetKey, number);
    var r := Remove(s, ratchetKey, number);
    if p < |s| {
      assert forall i :: 0 <= i < |r| ==> r[i] == if i < p then s[i] else s[i + 1];
      forall e | e in s && !Names(e, ratchetKey, number) ensures e in r {
        var i :| 0 <= i < |s| && s[i] == e;
        assert i != p;
        assert r[if i < p then i else i - 1] == e;
      }
    }
  }

  // ---- the store over a whole run ----

  datatype Operation = StashOne(entry: Entry) | TakeOne(ratchetKey: KeyId, number: nat)

  /** The store after the first `k` operations. */
  function Bounded(ops: seq<Operation>, k: nat): Store
    requires k <= |ops|
  {
    if k == 0 then []
    else
      match ops[k - 1]
      case StashOne(e) => Stash(Bounded(ops, k - 1), e)
      case TakeOne(ratchetKey, n) => Remove(Bounded(ops, k - 1), ratchetKey, n)
  }

  /** Every key inserted and neither handed out nor inserted anew since, oldest first: a key is
      handed out when it is asked for while the store still holds it, and a key inserted under a
      name the store still holds takes the place of the one before it. */
  function Unused(ops: seq<Operation>, k: nat): Store
    requires k <= |ops|
  {
    if k == 0 then []
    else
      var held, before := Bounded(ops, k - 1), Unused(ops, k - 1);
      match ops[k - 1]
      case StashOne(e) =>
        if Has(held, e.ratchetKey, e.number) then Assign(before, e) else Remove(before, e.ratchetKey, e.number) + [e]
      case TakeOne(ratchetKey, n) =>
        if Has(held, ratchetKey, n) then Remove(before, ratchetKey, n) else before
  }

  predicate IsTail(s: Store, u: Store) {
    |s| <= |u| && s == u[|u| - |s|..]
  }

  lemma CutFromTail(front: Store, s: Store, p: nat)
    requires p < |s|
    ensures (front + s)[..|front| + p] + (front + s)[|front| + p + 1..] == front + (s[..p] + s[p + 1..])
  {
  }

  lemma PositionInTail(front: Store, s: Store, ratchetKey: KeyId, n: nat)
    requires Unique(front + s) && Has(s, ratchetKey, n)
    ensures Position(front + s, ratchetKey, n) == |front| + Position(s, ratchetKey, n)
  {
    var p, q := Position(s, ratchetKey, n), Position(front + s, ratchetKey, n);
    assert (front + s)[|front| + p] == s[p];
    if q < |front| + p {
      assert false;
    }
  }

  lemma TailOf(front: Store, s: Store)
    ensures IsTail(s, front + s)
  {
  }

  lemma TakeKeepsTail(s: Store, u: Store, ratchetKey: KeyId, n: nat)
    requires Unique(u) && IsTail(s, u)
    ensures IsTail(Remove(s, ratchetKey, n), if Has(s, ratchetKey, n) then Remove(u, ratchetKey, n) else u)
  {
    if Has(s, ratchetKey, n) {
      var front, p := u[..|u| - |s|], Position(s, ratchetKey, n);
      assert u == front + s;
      hide Unique, IsTail;
      PositionInTail(front, s, ratchetKey, n);
      CutFromTail(front, s, p);
      var kept := s[..p] + s[p + 1..];
      assert Remove(u, ratchetKey, n) == front + kept;
      TailOf(front, kept);
    }
  }

  lemma StashKeepsTail(s: Store, u: Store, e: Entry)
    requires Unique(u + [e]) && IsTail(s, u)
    ensures IsTail(Stash(s, e), u + [e])
  {
    forall i | 0 <= i < |s| ensures !Names(s[i], e.ratchetKey, e.number) {
      assert s[i] == (u + [e])[|u| - |s| + i];
      assert e == (u + [e])[|u|];
    }
    assert Assign(s, e) == s + [e];
  }

  /** A name that a tail does not hold is removed from the part in front of it. */
  lemma RemoveBeforeTail(s: Store, u: Store, ratchetKey: KeyId, n: nat)
    requires Unique(u) && IsTail(s, u) && !Has(s, ratchetKey, n)
    ensures IsTail(s, Remove(u, ratchetKey, n))
  {
    assert forall i :: 0 <= i < |s| ==> s[i] == u[|u| - |s| + i];
    assert Position(u, ratchetKey, n) == |u| || Position(u, ratchetKey, n) < |u| - |s|;
  }

  lemma NewNameUnique(u: Store, e: Entry)
    requires Unique(u)
    ensures Unique(Remove(u, e.ratchetKey, e.number) + [e])
  {
    RemoveFacts(u, e.ratchetKey, e.number);
    var r := Remove(u, e.ratchetKey, e.number);
    forall i | 0 <= i < |r| ensures !Names(e, r[i].ratchetKey, r[i].number) {
      assert r[i] in r;
    }
  }

  lemma AssignedAt(s: Store, e: Entry, p: nat)
    requires Has(s, e.ratchetKey, e.number) && p == Position(s, e.ratchetKey, e.number)
    ensures Assign(s, e) == s[p := e] && Names(s[p], e.ratchetKey, e.number)
    ensures |s| <= MAX_SKIPPED ==> Stash(s, e) == Assign(s, e)
  {
  }

  lemma ReplacedUnique(u: Store, p: nat, e: Entry)
    requires Unique(u) && p < |u| && Names(u[p], e.ratchetKey, e.number)
    ensures Unique(u[p := e])
  {
  }

  /** A key inserted under a name the store holds is replaced in both. */
  lemma AssignKeepsTail(s: Store, u: Store, e: Entry)
    requires Unique(u) && IsTail(s, u) && Has(s, e.ratchetKey, e.number) && |s| <= MAX_SKIPPED
    ensures IsTail(Stash(s, e), Assign(u, e)) && Unique(Assign(u, e)) && |Stash(s, e)| == |s|
  {
    hide Stash, Assign, Unique;
    var front, p := u[..|u| - |s|], Position(s, e.ratchetKey, e.number);
    assert u == front + s;
    PositionInTail(front, s, e.ratchetKey, e.number);
    AssignedAt(s, e, p);
    AssignedAt(u, e, |front| + p);
    ReplacedUnique(u, |front| + p, e);
    assert u[|front| + p := e] == front + s[p := e];
    TailOf(front, s[p := e]);
  }

  /** Over any run of operations the store holds at most `MAX_SKIPPED` keys, the newest of those
      inserted and not used. */
  lemma {:induction false} StoreIsNewestUnused(ops: seq<Operation>, k: nat)
    requires k <= |ops|
    ensures |Bounded(ops, k)| <= MAX_SKIPPED && IsTail(Bounded(ops, k), Unused(ops, k)) && Unique(Unused(ops, k))
  {
    hide Remove, Has, IsTail, Unique, Assign, Stash;
    if k == 0 {
      EmptyTail();
    } else {
      StoreIsNewestUnused(ops, k - 1);
      var held, before := Bounded(ops, k - 1), Unused(ops, k - 1);
      match ops[k - 1]
      case StashOne(e) =>
        StashIsBounded(held, e);
        if Has(held, e.ratchetKey, e.number) {
          AssignKeepsTail(held, before, e);
        } else {
          RemoveBeforeTail(held, before, e.ratchetKey, e.number);
          NewNameUnique(before, e);
          StashKeepsTail(held, Remove(before, e.ratchetKey, e.number), e);
        }
      case TakeOne(ratchetKey, n) =>
        TakeKeepsTail(held, before, ratchetKey, n);
        RemoveFacts(before, ratchetKey, n);
        NeverGrows(held, ratchetKey, n);
    }
  }

  lemma StashIsBounded(s: Store, e: Entry)
    ensures |Stash(s, e)| <= MAX_SKIPPED
  {
  }

  lemma EmptyTail()
    ensures IsTail([], []) && Unique([])
  {
  }

  lemma NeverGrows(s: Store, ratchetKey: KeyId, n: nat)
    ensures |Remove(s, ratchetKey, n)| <= |s|
  {
  }

  /** Nothing is ever dropped while there are never more unused keys than the bound. */
  lemma {:induction false} NothingDropped(ops: seq<Operation>, k: nat)
    requires k <= |ops|
    requires forall j :: 0 <= j <= k ==> |Unused(ops, j)| <= MAX_SKIPPED
    ensures Bounded(ops, k) == Unused(ops, k)
  {
    hide Assign, Position, Stash;
    if k > 0 {
      NothingDropped(ops, k - 1);
      if ops[k - 1].StashOne? {
        assert |Unused(ops, k)| <= MAX_SKIPPED;
        StashFits(Bounded(ops, k - 1), ops[k - 1].entry);
      }
    }
  }

  lemma StashFits(s: Store, e: Entry)
    ensures Has(s, e.ratchetKey, e.number) ==> |Assign(s, e)| == |s|
    ensures !Has(s, e.ratchetKey, e.number) ==> Assign(s, e) == s + [e] == Remove(s, e.ratchetKey, e.number) + [e]
    ensures |Assign(s, e)| <= MAX_SKIPPED ==> Stash(s, e) == Assign(s, e)
  {
  }

  // ---- one operation, in full ----

  /** A lookup finds just the keys that are in the store under that name. */
  lemma LookupExactly(s: Store, ratchetKey: KeyId, number: nat, key: MessageKey)
    requires Unique(s)
    ensures Lookup(s, ratchetKey, number) == Some(key) <==> Entry(ratchetKey, number, key) in s
  {
    var p := Position(s, ratchetKey, number);
    if Entry(ratchetKey, number, key) in s {
      var i :| 0 <= i < |s| && s[i] == Entry(ratchetKey, number, key);
      assert p == i;
    }
  }

  /** Stashing a key under a name the store holds replaces it in its place. */
  lemma StashKnown(s: Store, e: Entry, p: nat)
    requires |s| <= 64 && Unique(s) && p < |s| && s[p].ratchetKey == e.ratchetKey && s[p].number == e.number
    ensures Stash(s, e) == s[..p] + [e] + s[p + 1..]
  {
    hide Stash, Assign, Unique;
    OnlyPosition(s, e, p);
    AssignedAt(s, e, p);
    assert s[p := e] == s[..p] + [e] + s[p + 1..];
  }

  lemma OnlyPosition(s: Store, e: Entry, p: nat)
    requires Unique(s) && p < |s| && Names(s[p], e.ratchetKey, e.number)
    ensures Position(s, e.ratchetKey, e.number) == p && Has(s, e.ratchetKey, e.number)
  {
  }

  /** Any other key goes to the end, and of a full store the oldest key goes. */
  lemma StashNew(s: Store, e: Entry)
    requires |s| <= 64 && forall i :: 0 <= i < |s| ==> !(s[i].ratchetKey == e.ratchetKey && s[i].number == e.number)
    ensures Stash(s, e) == (if |s| == 64 then s[1..] else s) + [e]
  {
    hide Newest;
    assert Position(s, e.ratchetKey, e.number) == |s|;
    assert Assign(s, e) == s + [e];
    if |s| == 64 {
      assert (s + [e])[1..] == s[1..] + [e];
    }
  }

  /** Taking a key removes one entry of that name, if there is one, and keeps the others in their order. */
  lemma TakeExactly(s: Store, ratchetKey: KeyId, number: nat)
    ensures var r := Remove(s, ratchetKey, number);
            if exists i :: 0 <= i < |s| && s[i].ratchetKey == ratchetKey && s[i].number == number then
              exists p :: 0 <= p < |s| && s[p].ratchetKey == ratchetKey && s[p].number == number && r == s[..p] + s[p + 1..]
            else r == s
  {
    var p := Position(s, ratchetKey, number);
    if p < |s| {
      assert s[p].ratchetKey == ratchetKey && s[p].number == number && Remove(s, ratchetKey, number) == s[..p] + s[p + 1..];
    }
  }
}
