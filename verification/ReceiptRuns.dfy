/** Runs of one thread of the web client: receipts of the peer, acknowledgements and server copies of
    messages, the watermarks this user's own reading raises, and calls that write back an old thread. */
module ReceiptRuns {
  import opened Options
  import opened Receipts

  /** Three of the events end a call that worked on the thread as it was after the first `begun` events,
      and write that thread back; see `Run`. */
  datatype Event =
    | Receipt(checkpoint: Checkpoint)
    | Acknowledged(id: string, patch: Patch)
    | Appended(message: Message)
    | OwnRead(begun: nat)
    | OwnDelivered(through: nat)
    | ServerCopy(message: Message)
    | Reloaded(begun: nat, items: seq<Message>)
    | Edited(begun: nat)
    | Remapped(kept: bool)
    | Restored

  // ---- the source's functions ----

  /** The order of the last numbered incoming message in the list, or 0. */
  function LastIncoming(messages: seq<Message>): nat {
    if messages == [] then 0
    else
      var last := messages[|messages| - 1];
      if !last.outgoing && last.serverOrder > 0 then last.serverOrder else LastIncoming(messages[..|messages| - 1])
  }

  function Without(messages: seq<Message>, id: string): seq<Message> {
    if messages == [] then []
    else
      var front, last := Without(messages[..|messages| - 1], id), messages[|messages| - 1];
      if last.id == id then front else front + [last]
  }

  /** Insertion behind everything that is not younger, as in a stable sort. */
  function InsertByTime(messages: seq<Message>, m: Message): seq<Message> {
    if messages == [] || messages[|messages| - 1].createdAt <= m.createdAt then messages + [m]
    else InsertByTime(messages[..|messages| - 1], m) + [messages[|messages| - 1]]
  }

  function SortByTime(messages: seq<Message>): seq<Message> {
    if messages == [] then []
    else InsertByTime(SortByTime(messages[..|messages| - 1]), messages[|messages| - 1])
  }

  /** Raising the read watermark because this user read an incoming message; no message changes. */
  function RaiseRead(t: Thread, through: nat): Thread {
    t.(readThrough := Max(t.readThrough, through))
  }

  function Renormalized(messages: seq<Message>): seq<Message> {
    seq(|messages|, i requires 0 <= i < |messages| =>
      messages[i].(status := Normalized(messages[i].transport, messages[i].status)))
  }

  /** One event on thread `t`; `seen` is the thread as the call that the event ends saw it. */
  function Next(seen: Thread, t: Thread, e: Event): Thread {
    match e
    case Receipt(c) => ApplyCheckpoint(t, c)
    case Acknowledged(id, p) => PatchMessage(t, id, p)
    case Appended(m) => t.(messages := t.messages + [m])
    case OwnRead(_) =>
      if LastIncoming(seen.messages) == 0 then t else RaiseRead(seen, LastIncoming(seen.messages))
    case OwnDelivered(through) => t.(deliveredThrough := Max(t.deliveredThrough, through))
    case ServerCopy(m) => t.(messages := SortByTime(Without(t.messages, m.id) + [m]))
    case Reloaded(_, items) => seen.(messages := items)
    case Edited(_) => seen   // an edit replaces texts only
    case Remapped(kept) => Thread(if kept then t.messages else [], 0, 0)
    case Restored => t.(messages := Renormalized(t.messages))
  }

  /** How many of the `k` events before it the call that the event ends had seen. */
  function Began(e: Event, k: nat): (b: nat)
    ensures b <= k
  {
    match e
    case OwnRead(begun) => if begun < k then begun else k
    case Reloaded(begun, _) => if begun < k then begun else k
    case Edited(begun) => if begun < k then begun else k
    case _ => k
  }

  function Run(t: Thread, es: seq<Event>): Thread
    decreases |es|
  {
    if es == [] then t
    else
      var k := |es| - 1;
      Next(Run(t, es[..Began(es[k], k)]), Run(t, es[..k]), es[k])
  }

  // ---- no message behind the watermarks ----

  predicate Numbered(m: Message) {
    m.outgoing && m.transport == Ohmf && m.serverOrder > 0
  }

  /** The message shows at least what the watermarks of its thread say. */
  predicate UpToDate(t: Thread, m: Message) {
    Numbered(m) ==>
      && (m.serverOrder <= t.readThrough ==> m.status == Read)
      && (m.serverOrder <= t.deliveredThrough ==> m.status == Read || m.status == Delivered)
  }

  predicate AllUpToDate(t: Thread) {
    forall i :: 0 <= i < |t.messages| ==> UpToDate(t, t.messages[i])
  }

  /** Every numbered message of this user up to an order shows one of two statuses. */
  predicate ShownUpTo(messages: seq<Message>, order: nat, one: Status, other: Status) {
    forall i :: 0 <= i < |messages| && Numbered(messages[i]) && messages[i].serverOrder <= order ==>
      messages[i].status == one || messages[i].status == other
  }

  /** When an event leaves no message behind: the peer's receipts and acknowledgements always; this
      user's own reading only if the peer has read everything up to the incoming message; a copy from
      the server only if it comes with the status the watermarks ask for. */
  predicate KeepsUp(seen: Thread, t: Thread, e: Event) {
    match e
    case OwnRead(_) => ShownUpTo(seen.messages, LastIncoming(seen.messages), Read, Read)
    case OwnDelivered(through) => ShownUpTo(t.messages, through, Read, Delivered)
    case Appended(m) => UpToDate(t, m)
    case ServerCopy(m) => UpToDate(t, m)
    case Reloaded(_, items) => forall i :: 0 <= i < |items| ==> UpToDate(seen, items[i])
    case _ => true
  }

  // ---- single events ----

  /** Message `i` is an incoming one the server has numbered, and none after it is. */
  predicate LastNumbered(messages: seq<Message>, i: nat) {
    && i < |messages| && !messages[i].outgoing && messages[i].serverOrder > 0
    && forall j :: i < j < |messages| ==> messages[j].outgoing || messages[j].serverOrder == 0
  }

  /** Own reading looks for the last incoming message that the server has numbered. */
  lemma {:induction false} LastIncomingExactly(messages: seq<Message>)
    ensures forall i: nat :: LastNumbered(messages, i) ==> LastIncoming(messages) == messages[i].serverOrder
    ensures LastIncoming(messages) > 0 <==> exists i: nat :: LastNumbered(messages, i)
  {
    if messages != [] {
      var front, last := messages[..|messages| - 1], messages[|messages| - 1];
      LastIncomingExactly(front);
      if last.outgoing || last.serverOrder == 0 {
        forall i: nat ensures LastNumbered(messages, i) <==> LastNumbered(front, i) {
          SameNumbered(messages, i);
        }
      } else {
        assert LastNumbered(messages, |messages| - 1);
        forall i: nat | LastNumbered(messages, i) ensures i == |messages| - 1 {
        }
      }
    }
  }

  lemma SameNumbered(messages: seq<Message>, i: nat)
    requires messages != [] && (messages[|messages| - 1].outgoing || messages[|messages| - 1].serverOrder == 0)
    ensures LastNumbered(messages, i) <==> LastNumbered(messages[..|messages| - 1], i)
  {
    assert forall j :: 0 <= j < |messages| - 1 ==> messages[..|messages| - 1][j] == messages[j];
  }

  /** Restoring a thread from the local store keeps its watermarks and, of each message, all but what SMS
      does not know: an SMS message shows a failed send or nothing. Mapping the conversation anew
      forgets both watermarks, and the messages too unless they are carried over. */
  lemma RestoredAndRemapped(t: Thread)
    ensures var n := Next(t, t, Restored);
            && n.readThrough == t.readThrough && n.deliveredThrough == t.deliveredThrough && |n.messages| == |t.messages|
            && forall i :: 0 <= i < |t.messages| ==>
                 && (t.messages[i].transport == Ohmf ==> n.messages[i] == t.messages[i])
                 && (t.messages[i].transport == Sms ==>
                       n.messages[i] == t.messages[i].(status := if t.messages[i].status == FailSend then FailSend else Sent))
    ensures Next(t, t, Remapped(true)) == Thread(t.messages, 0, 0) && Next(t, t, Remapped(false)) == Thread([], 0, 0)
  {
  }

  // ---- contents of the rebuilt lists ----

  lemma Parts(messages: seq<Message>)
    requires messages != []
    ensures var k := |messages| - 1; multiset(messages) == multiset(messages[..k]) + multiset{messages[k]}
  {
    assert messages == messages[..|messages| - 1] + [messages[|messages| - 1]];
  }

  lemma {:induction false} InsertedContents(messages: seq<Message>, m: Message)
    ensures multiset(InsertByTime(messages, m)) == multiset(messages) + multiset{m}
  {
    if messages != [] && !(messages[|messages| - 1].createdAt <= m.createdAt) {
      InsertedContents(messages[..|messages| - 1], m);
      Parts(messages);
    }
  }

  /** The sort loses and adds nothing. */
  lemma {:induction false} SortedContents(messages: seq<Message>)
    ensures multiset(SortByTime(messages)) == multiset(messages)
  {
    if messages != [] {
      hide InsertByTime;
      SortedContents(messages[..|messages| - 1]);
      InsertedContents(SortByTime(messages[..|messages| - 1]), messages[|messages| - 1]);
      Parts(messages);
    }
  }

  predicate InTimeOrder(messages: seq<Message>) {
    forall i, j :: 0 <= i < j < |messages| ==> messages[i].createdAt <= messages[j].createdAt
  }

  /** The messages of one moment, in list order. */
  function At(messages: seq<Message>, moment: int): seq<Message> {
    if messages == [] then []
    else
      var front, last := At(messages[..|messages| - 1], moment), messages[|messages| - 1];
      if last.createdAt == moment then front + [last] else front
  }

  lemma AtMore(messages: seq<Message>, m: Message, moment: int)
    ensures At(messages + [m], moment) == if m.createdAt == moment then At(messages, moment) + [m] else At(messages, moment)
  {
    assert (messages + [m])[..|messages|] == messages;
  }

  lemma {:induction false} InsertedInOrder(messages: seq<Message>, m: Message)
    requires InTimeOrder(messages)
    ensures InTimeOrder(InsertByTime(messages, m))
  {
    if messages != [] && !(messages[|messages| - 1].createdAt <= m.createdAt) {
      var front, last := messages[..|messages| - 1], messages[|messages| - 1];
      InsertedInOrder(front, m);
      InsertedContents(front, m);
      var inserted := InsertByTime(front, m);
      forall i | 0 <= i < |inserted| ensures inserted[i].createdAt <= last.createdAt {
        assert inserted[i] in multiset(inserted);
        assert inserted[i] == m || inserted[i] in front;
      }
    }
  }

  lemma {:induction false} InsertedAt(messages: seq<Message>, m: Message, moment: int)
    ensures InTimeOrder(messages) ==> At(InsertByTime(messages, m), moment) == At(messages + [m], moment)
  {
    hide InTimeOrder;
    AtMore(messages, m, moment);
    if messages != [] && !(messages[|messages| - 1].createdAt <= m.createdAt) && InTimeOrder(messages) {
      var front, last := messages[..|messages| - 1], messages[|messages| - 1];
      OrderedFront(messages);
      InsertedAt(front, m, moment);
      AtMore(front, m, moment);
      AtMore(InsertByTime(front, m), last, moment);
      if m.createdAt == moment {
        assert last.createdAt != moment;
      }
    }
  }

  lemma OrderedFront(messages: seq<Message>)
    requires messages != [] && InTimeOrder(messages)
    ensures InTimeOrder(messages[..|messages| - 1])
  {
  }

  /** The sort is stable: in time order, and messages of one moment keep their order. */
  lemma {:induction false} SortIsStable(messages: seq<Message>, moment: int)
    ensures InTimeOrder(SortByTime(messages)) && At(SortByTime(messages), moment) == At(messages, moment)
  {
    if messages != [] {
      var front, last := messages[..|messages| - 1], messages[|messages| - 1];
      SortIsStable(front, moment);
      InsertedInOrder(SortByTime(front), last);
      InsertedAt(SortByTime(front), last, moment);
      AtMore(SortByTime(front), last, moment);
    }
  }

  lemma {:induction false} WithoutContents(messages: seq<Message>, id: string)
    ensures forall x :: x in Without(messages, id) <==> x in messages && x.id != id
  {
    if messages != [] {
      WithoutContents(messages[..|messages| - 1], id);
      assert messages == messages[..|messages| - 1] + [messages[|messages| - 1]];
    }
  }

  /** A server copy replaces what had its id. */
  lemma CopyContents(messages: seq<Message>, m: Message)
    ensures forall x :: x in SortByTime(Without(messages, m.id) + [m]) <==> x == m || (x in messages && x.id != m.id)
  {
    var all := Without(messages, m.id) + [m];
    SortedContents(all);
    WithoutContents(messages, m.id);
    assert forall x :: x in SortByTime(all) <==> x in multiset(SortByTime(all));
    assert forall x :: x in all <==> x in multiset(all);
  }

  lemma {:induction false} DedupedContents(messages: seq<Message>)
    ensures forall x :: x in Deduped(messages) ==> x in messages
  {
    if messages != [] {
      DedupedContents(messages[..|messages| - 1]);
    }
  }

  /** The only message with its id stays. */
  lemma DedupedKeeps(messages: seq<Message>, m: Message)
    requires Sole(messages, m)
    ensures Sole(Deduped(messages), m)
  {
    hide Deduped;
    DedupedContents(messages);
    DedupedRow(messages, m.id);
    var i :| 0 <= i < |messages| && messages[i] == m;
    assert FirstAt(messages, m.id) <= i;
    assert messages[FirstAt(messages, m.id)] in messages;
    assert Row(Deduped(messages), m.id) == Some(m);
    assert Deduped(messages)[FirstAt(Deduped(messages), m.id)] in Deduped(messages);
  }

  // ---- one event ----

  lemma AllIn(t: Thread)
    ensures AllUpToDate(t) <==> forall m :: m in t.messages ==> UpToDate(t, m)
  {
  }

  lemma ReceiptKeeps(t: Thread, c: Checkpoint)
    requires AllUpToDate(t)
    ensures AllUpToDate(ApplyCheckpoint(t, c))
  {
    var n := ApplyCheckpoint(t, c);
    forall i | 0 <= i < |n.messages| ensures UpToDate(n, n.messages[i]) {
      assert UpToDate(t, t.messages[i]);
    }
  }

  lemma AckKeeps(t: Thread, id: string, p: Patch)
    requires AllUpToDate(t)
    ensures AllUpToDate(PatchMessage(t, id, p))
  {
    hide Deduped;
    var patched := Patched(t, id, p);
    forall i | 0 <= i < |patched| ensures UpToDate(t, patched[i]) {
      assert UpToDate(t, t.messages[i]);
    }
    DedupedContents(patched);
    var n := PatchMessage(t, id, p);
    assert n.messages == patched || n.messages == Deduped(patched);
    forall i | 0 <= i < |n.messages| ensures UpToDate(n, n.messages[i]) {
      assert n.messages[i] in n.messages;
      assert n.messages[i] in patched;
    }
  }

  lemma CopyKeeps(t: Thread, m: Message)
    requires AllUpToDate(t)
    ensures AllUpToDate(Next(t, t, ServerCopy(m))) <==> UpToDate(t, m)
  {
    hide SortByTime, Without;
    var n := Next(t, t, ServerCopy(m));
    CopyContents(t.messages, m);
    AllIn(t);
    AllIn(n);
    assert m in n.messages;
    assert forall x :: UpToDate(n, x) <==> UpToDate(t, x);
  }

  /** From up-to-date threads the event leaves an up-to-date thread if and only if its guard holds. */
  lemma EventKeeps(seen: Thread, t: Thread, e: Event)
    requires AllUpToDate(seen) && AllUpToDate(t)
    ensures AllUpToDate(Next(seen, t, e)) <==> KeepsUp(seen, t, e)
  {
    hide LastIncoming;
    match e
    case Receipt(c) => ReceiptKeeps(t, c);
    case Acknowledged(id, p) => AckKeeps(t, id, p);
    case ServerCopy(m) => CopyKeeps(t, m);
    case Appended(m) => AppendKeeps(t, m);
    case OwnRead(_) => OwnReadKeeps(seen, LastIncoming(seen.messages));
    case OwnDelivered(through) =>
      var n := Next(seen, t, e);
      assert forall i :: 0 <= i < |t.messages| ==> UpToDate(t, t.messages[i]);
      assert n.messages == t.messages;
    case Reloaded(_, items) =>
      assert forall m :: UpToDate(Next(seen, t, e), m) <==> UpToDate(seen, m);
    case Edited(_) =>
    case Remapped(_) =>
    case Restored =>
      var n := Next(seen, t, e);
      forall i | 0 <= i < |n.messages| ensures UpToDate(n, n.messages[i]) {
        assert UpToDate(t, t.messages[i]);
      }
  }

  lemma AppendKeeps(t: Thread, m: Message)
    requires AllUpToDate(t)
    ensures AllUpToDate(Next(t, t, Appended(m))) <==> UpToDate(t, m)
  {
    var n := Next(t, t, Appended(m));
    assert n.messages[|t.messages|] == m;
    assert forall i :: 0 <= i < |t.messages| ==> n.messages[i] == t.messages[i];
    assert forall x :: UpToDate(n, x) <==> UpToDate(t, x);
  }

  lemma OwnReadKeeps(t: Thread, through: nat)
    requires AllUpToDate(t)
    ensures AllUpToDate(RaiseRead(t, through)) <==> ShownUpTo(t.messages, through, Read, Read)
  {
    var n := RaiseRead(t, through);
    assert n.messages == t.messages;
    assert forall i :: 0 <= i < |t.messages| ==> UpToDate(t, t.messages[i]);
  }

  /** The thread as the call that event `k` ends saw it. */
  function SeenAt(t: Thread, es: seq<Event>, k: nat): Thread
    requires k < |es|
  {
    Run(t, es[..Began(es[k], k)])
  }

  predicate ShownAt(t: Thread, es: seq<Event>, k: nat)
    requires k <= |es|
  {
    AllUpToDate(Run(t, es[..k]))
  }

  predicate GuardAt(t: Thread, es: seq<Event>, k: nat)
    requires k < |es|
  {
    KeepsUp(SeenAt(t, es, k), Run(t, es[..k]), es[k])
  }

  predicate AlwaysUpToDate(t: Thread, es: seq<Event>) {
    forall k :: 0 <= k <= |es| ==> ShownAt(t, es, k)
  }

  predicate EveryGuard(t: Thread, es: seq<Event>) {
    forall k :: 0 <= k < |es| ==> GuardAt(t, es, k)
  }

  lemma SamePrefix(t: Thread, es: seq<Event>, n: nat, k: nat)
    requires k <= n <= |es|
    ensures ShownAt(t, es[..n], k) == ShownAt(t, es, k)
    ensures k < n ==> GuardAt(t, es[..n], k) == GuardAt(t, es, k)
  {
    hide Run, AllUpToDate, KeepsUp;
    assert es[..n][..k] == es[..k];
    if k < n {
      assert es[..n][..Began(es[k], k)] == es[..Began(es[k], k)];
    }
  }

  lemma LongerRun(t: Thread, es: seq<Event>)
    requires es != []
    ensures var n := |es| - 1;
            && (AlwaysUpToDate(t, es) <==> AlwaysUpToDate(t, es[..n]) && ShownAt(t, es, |es|))
            && (EveryGuard(t, es) <==> EveryGuard(t, es[..n]) && GuardAt(t, es, n))
  {
    hide ShownAt, GuardAt;
    var n := |es| - 1;
    forall k | 0 <= k <= n
      ensures ShownAt(t, es[..n], k) == ShownAt(t, es, k)
      ensures k < n ==> GuardAt(t, es[..n], k) == GuardAt(t, es, k)
    {
      SamePrefix(t, es, n, k);
    }
  }

  /** The last event meets its guard if and only if it leaves the thread up to date. */
  lemma LastEvent(t: Thread, es: seq<Event>)
    requires es != [] && AlwaysUpToDate(t, es[..|es| - 1])
    ensures ShownAt(t, es, |es|) <==> GuardAt(t, es, |es| - 1)
  {
    hide AllUpToDate, KeepsUp, Next;
    var n := |es| - 1;
    var b := Began(es[n], n);
    SamePrefix(t, es, n, n);
    SamePrefix(t, es, n, b);
    assert ShownAt(t, es[..n], n) && ShownAt(t, es[..n], b);
    assert es[..|es|] == es;
    EventKeeps(SeenAt(t, es, n), Run(t, es[..n]), es[n]);
  }

  /** A run from an up-to-date thread, such as an empty one, never shows a numbered message behind the
      watermarks if and only if every one of its events meets its guard when it happens. Calls that
      write back an old thread are no exception. */
  lemma {:induction false} NeverBehind(t: Thread, es: seq<Event>)
    requires AllUpToDate(t)
    ensures AlwaysUpToDate(t, es) <==> EveryGuard(t, es)
  {
    hide AlwaysUpToDate, EveryGuard, ShownAt, GuardAt;
    if es == [] {
      NoEvents(t);
    } else {
      LongerRun(t, es);
      NeverBehind(t, es[..|es| - 1]);
      if AlwaysUpToDate(t, es[..|es| - 1]) {
        LastEvent(t, es);
      }
    }
  }

  lemma NoEvents(t: Thread)
    ensures Run(t, []) == t
    ensures AlwaysUpToDate(t, []) == AllUpToDate(t) && EveryGuard(t, [])
  {
    hide AllUpToDate;
    var none: seq<Event> := [];
    assert none[..0] == none;
    assert ShownAt(t, none, 0) == AllUpToDate(t);
  }

  // ---- calls that write back an old thread ----

  /** No call of the run lasted beyond the event that ends it. */
  predicate Current(es: seq<Event>) {
    forall k :: 0 <= k < |es| ==> Began(es[k], k) == k
  }

  /** The event as the end of a call that began after `k` events. */
  function BegunAt(e: Event, k: nat): Event {
    match e
    case OwnRead(_) => OwnRead(k)
    case Reloaded(_, items) => Reloaded(k, items)
    case Edited(_) => Edited(k)
    case _ => e
  }

  /** Event `k` ends a reading of a thread without numbered incoming messages, which does nothing. */
  predicate Idle(t: Thread, es: seq<Event>, k: nat)
    requires k < |es|
  {
    es[k].OwnRead? && LastIncoming(SeenAt(t, es, k).messages) == 0
  }

  /** The events a run comes down to: a call that writes its thread back wipes out everything that
      happened while it lasted. */
  function Effective(t: Thread, es: seq<Event>): seq<Event>
    decreases |es|
  {
    if es == [] then []
    else
      var k := |es| - 1;
      if Idle(t, es, k) then Effective(t, es[..k])
      else
        var kept := Effective(t, es[..Began(es[k], k)]);
        kept + [BegunAt(es[k], |kept|)]
  }

  lemma CurrentMore(t: Thread, es: seq<Event>, e: Event)
    requires Current(es)
    ensures var now := BegunAt(e, |es|);
            Current(es + [now]) && Run(t, es + [now]) == Next(Run(t, es), Run(t, es), now)
  {
    var now := BegunAt(e, |es|);
    assert (es + [now])[..|es|] == es;
    assert forall k :: 0 <= k < |es| ==> (es + [now])[k] == es[k];
  }

  /** A call that writes a thread back takes nothing from the thread it finds. */
  lemma NextFromSeen(t: Thread, es: seq<Event>, n: nat)
    requires es != []
    ensures var k := |es| - 1;
            var seen := SeenAt(t, es, k);
            Run(t, es) == if Idle(t, es, k) then Run(t, es[..k]) else Next(seen, seen, BegunAt(es[k], n))
  {
    hide LastIncoming;
  }

  /** Every run ends where the run of its effective events ends, in which no call lasts. */
  lemma {:induction false} EffectiveRun(t: Thread, es: seq<Event>)
    ensures Current(Effective(t, es)) && Run(t, es) == Run(t, Effective(t, es))
    decreases |es|
  {
    hide Current, Run, Next, Idle;
    if es == [] {
      NothingLasts();
    } else {
      var k := |es| - 1;
      if Idle(t, es, k) {
        EffectiveRun(t, es[..k]);
        NextFromSeen(t, es, 0);
      } else {
        EffectiveRun(t, es[..Began(es[k], k)]);
        var kept := Effective(t, es[..Began(es[k], k)]);
        NextFromSeen(t, es, |kept|);
        CurrentMore(t, kept, es[k]);
      }
    }
  }

  lemma NothingLasts()
    ensures Current([])
  {
  }

  // ---- one message ----

  /** The message is the only one with its id. */
  predicate Sole(messages: seq<Message>, m: Message) {
    m in messages && forall x :: x in messages && x.id == m.id ==> x == m
  }

  predicate Touches(e: Event, id: string) {
    match e
    case Acknowledged(replaced, p) => replaced == id || p.id == Some(id)
    case Appended(m) => m.id == id
    case ServerCopy(m) => m.id == id
    case Reloaded(_, _) => true
    case Remapped(kept) => !kept
    case _ => false
  }

  function CheckpointsOf(es: seq<Event>): seq<Checkpoint> {
    if es == [] then []
    else
      var front, last := CheckpointsOf(es[..|es| - 1]), es[|es| - 1];
      if last.Receipt? then front + [last.checkpoint] else front
  }

  /** The highest order up to which this user read since the watermarks were last reset. */
  function OwnReadThrough(t: Thread, es: seq<Event>): nat {
    if es == [] then 0
    else
      var front, last := es[..|es| - 1], es[|es| - 1];
      if last.OwnRead? then Max(OwnReadThrough(t, front), LastIncoming(Run(t, front).messages))
      else if last.Remapped? then 0
      else OwnReadThrough(t, front)
  }

  function OwnDeliveredThrough(es: seq<Event>): nat {
    if es == [] then 0
    else
      var front, last := es[..|es| - 1], es[|es| - 1];
      if last.OwnDelivered? then Max(OwnDeliveredThrough(front), last.through)
      else if last.Remapped? then 0
      else OwnDeliveredThrough(front)
  }

  /** What the watermarks and the message are after a run, seen from one message. */
  predicate Tracked(m: Message, final: Thread, cs: seq<Checkpoint>, ownRead: nat, ownDelivered: nat) {
    var n := m.(status := Settled(m, cs));
    && Sole(final.messages, n)
    && ownRead <= final.readThrough && ownDelivered <= final.deliveredThrough
    && (m.serverOrder <= final.readThrough ==> m.serverOrder <= ownRead || n.status == Read)
    && (m.serverOrder <= final.deliveredThrough ==>
          m.serverOrder <= ownDelivered || n.status == Read || n.status == Delivered)
  }

  lemma ReceiptTracks(m: Message, t: Thread, cs: seq<Checkpoint>, r: nat, d: nat, c: Checkpoint)
    requires Numbered(m) && Tracked(m, t, cs, r, d)
    ensures Tracked(m, ApplyCheckpoint(t, c), cs + [c], r, d)
  {
    hide CoveredBy;
    CoveredMore(m.serverOrder, cs + [c], true);
    CoveredMore(m.serverOrder, cs + [c], false);
    assert (cs + [c])[..|cs|] == cs;
    var n, final := m.(status := Settled(m, cs)), ApplyCheckpoint(t, c);
    var k :| 0 <= k < |t.messages| && t.messages[k] == n;
    assert final.messages[k] == Checked(n, c);
    forall x | x in final.messages && x.id == m.id ensures x == Checked(n, c) {
      var i :| 0 <= i < |final.messages| && final.messages[i] == x;
      assert t.messages[i] in t.messages;
    }
  }

  lemma AckTracks(m: Message, t: Thread, cs: seq<Checkpoint>, r: nat, d: nat, id: string, p: Patch)
    requires Tracked(m, t, cs, r, d) && !Touches(Acknowledged(id, p), m.id)
    ensures Tracked(m, PatchMessage(t, id, p), cs, r, d)
  {
    hide Settled, Deduped, ApplyStored;
    var n, patched, final := m.(status := Settled(m, cs)), Patched(t, id, p), PatchMessage(t, id, p);
    var k :| 0 <= k < |t.messages| && t.messages[k] == n;
    assert patched[k] == n;
    forall x | x in patched && x.id == m.id ensures x == n {
      var i :| 0 <= i < |patched| && patched[i] == x;
      StoredKeepsId(t, Merged(t.messages[i], p));
      assert t.messages[i] in t.messages;
    }
    DedupedKeeps(patched, n);
    assert final.messages == patched || final.messages == Deduped(patched);
  }

  lemma StoredKeepsId(t: Thread, m: Message)
    ensures ApplyStored(t, m).id == m.id
  {
  }

  lemma CopyTracks(m: Message, t: Thread, cs: seq<Checkpoint>, r: nat, d: nat, copy: Message)
    requires Tracked(m, t, cs, r, d) && copy.id != m.id
    ensures Tracked(m, Next(t, t, ServerCopy(copy)), cs, r, d)
  {
    hide SortByTime, Without, Settled;
    CopyContents(t.messages, copy);
  }

  lemma RestoreTracks(m: Message, t: Thread, cs: seq<Checkpoint>, r: nat, d: nat)
    requires Numbered(m) && Tracked(m, t, cs, r, d)
    ensures Tracked(m, Next(t, t, Restored), cs, r, d)
  {
    hide Settled;
    var n, final := m.(status := Settled(m, cs)), Next(t, t, Restored);
    var k :| 0 <= k < |t.messages| && t.messages[k] == n;
    assert final.messages[k] == n;
    forall x | x in final.messages && x.id == m.id ensures x == n {
      var i :| 0 <= i < |final.messages| && final.messages[i] == x;
      assert t.messages[i] in t.messages;
    }
  }

  lemma {:induction false} RunTracks(t: Thread, es: seq<Event>, m: Message)
    requires Numbered(m) && Sole(t.messages, m) && UpToDate(t, m) && Current(es)
    requires forall e :: e in es ==> !Touches(e, m.id)
    ensures Tracked(m, Run(t, es), CheckpointsOf(es), OwnReadThrough(t, es), OwnDeliveredThrough(es))
  {
    if es != [] {
      hide LastIncoming, Touches, Settled, Next, Began;
      var front, e := es[..|es| - 1], es[|es| - 1];
      RunTracks(t, front, m);
      assert e in es && Began(e, |front|) == |front|;
      EventTracks(m, Run(t, front), CheckpointsOf(front), OwnReadThrough(t, front), OwnDeliveredThrough(front), e);
    }
  }

  lemma EventTracks(m: Message, t: Thread, cs: seq<Checkpoint>, r: nat, d: nat, e: Event)
    requires Numbered(m) && Tracked(m, t, cs, r, d) && !Touches(e, m.id)
    ensures Tracked(m, Next(t, t, e), if e.Receipt? then cs + [e.checkpoint] else cs,
                    if e.OwnRead? then Max(r, LastIncoming(t.messages)) else if e.Remapped? then 0 else r,
                    if e.OwnDelivered? then Max(d, e.through) else if e.Remapped? then 0 else d)
  {
    hide Settled, LastIncoming, SortByTime, Without, ApplyCheckpoint, PatchMessage;
    match e
    case Receipt(c) => ReceiptTracks(m, t, cs, r, d, c);
    case Acknowledged(id, p) => AckTracks(m, t, cs, r, d, id, p);
    case ServerCopy(copy) => CopyTracks(m, t, cs, r, d, copy);
    case Restored => RestoreTracks(m, t, cs, r, d);
    case Appended(_) =>
    case OwnRead(_) =>
    case OwnDelivered(_) =>
    case Reloaded(_, _) =>
    case Edited(_) =>
    case Remapped(_) =>
  }

  /** An up-to-date message that no effective event replaces ends with the status of the effective
      receipts. It is up to date if and only if these cover it wherever this user's own reading does:
      that reading raises the watermarks of the thread and nothing else. */
  lemma StaysUpToDate(t: Thread, es: seq<Event>, m: Message)
    requires Numbered(m) && Sole(t.messages, m) && UpToDate(t, m)
    requires forall e :: e in Effective(t, es) ==> !Touches(e, m.id)
    ensures var fs := Effective(t, es);
            var cs := CheckpointsOf(fs);
            var n := m.(status := Settled(m, cs));
            && Sole(Run(t, es).messages, n)
            && (UpToDate(Run(t, es), n) <==>
                  && (m.serverOrder <= OwnReadThrough(t, fs) ==> m.status == Read || CoveredBy(m.serverOrder, cs, true))
                  && (m.serverOrder <= OwnDeliveredThrough(fs) ==>
                        m.status == Read || m.status == Delivered || CoveredBy(m.serverOrder, cs, false)))
  {
    hide Run, OwnReadThrough, OwnDeliveredThrough, CheckpointsOf, Effective;
    EffectiveRun(t, es);
    RunTracks(t, Effective(t, es), m);
  }

  // ---- this user's reading and the late acknowledgement ----

  lemma OneMore(t: Thread, es: seq<Event>, e: Event)
    ensures Run(t, es + [e]) == Next(Run(t, es[..Began(e, |es|)]), Run(t, es), e)
  {
    assert (es + [e])[..|es|] == es && (es + [e])[..Began(e, |es|)] == es[..Began(e, |es|)];
  }

  /** The failing run: this user's own message, an incoming message at or past it, and this user reads
      it. The own message is behind the watermark although the peer read nothing. A receipt of the peer
      that arrives while the call is under way makes no difference: it is lost. */
  lemma OwnReadLeavesBehind(mine: Message, theirs: Message, receipts: seq<Checkpoint>)
    requires Numbered(mine) && mine.status == Sent && !theirs.outgoing
    requires mine.id != theirs.id && mine.serverOrder <= theirs.serverOrder && mine.createdAt <= theirs.createdAt
    ensures var during := seq(|receipts|, i requires 0 <= i < |receipts| => Receipt(receipts[i]));
            var final := Run(Thread([], 0, 0), [ServerCopy(mine), ServerCopy(theirs)] + during + [OwnRead(2)]);
            final == Thread([mine, theirs], theirs.serverOrder, 0) && !AllUpToDate(final)
  {
    hide SortByTime, Without, LastIncoming, Run;
    var t, a, b := Thread([], 0, 0), ServerCopy(mine), ServerCopy(theirs);
    var during := seq(|receipts|, i requires 0 <= i < |receipts| => Receipt(receipts[i]));
    var es := [a, b] + during;
    NoEvents(t);
    OneMore(t, [], a);
    OneMore(t, [a], b);
    OneOrTwo(mine, theirs);
    assert [] + [a] == [a] && [a] + [b] == [a, b];
    OneMore(t, es, OwnRead(2));
    assert es[..2] == [a, b];
    var final := Run(t, es + [OwnRead(2)]);
    assert final.messages[0] == mine;
  }

  lemma OneOrTwo(a: Message, b: Message)
    requires a.id != b.id && a.createdAt <= b.createdAt
    ensures SortByTime(Without([], a.id) + [a]) == [a]
    ensures SortByTime(Without([a], b.id) + [b]) == [a, b]
    ensures !b.outgoing && b.serverOrder > 0 ==> LastIncoming([a, b]) == b.serverOrder
  {
    assert [] + [a] == [a] && [a] + [b] == [a, b];
    assert [a][..0] == [] && [a, b][..1] == [a];
    assert Without([], a.id) == [] && Without([], b.id) == [];
    assert Without([a], b.id) == [a];
    assert SortByTime([]) == [] && SortByTime([a]) == [a];
  }

  /** Row i is patched and is still there when duplicates have been removed. */
  predicate Kept(messages: seq<Message>, id: string, p: Patch, i: nat)
    requires i < |messages|
  {
    && messages[i].id == id
    && (p.id.Some? ==> forall j :: 0 <= j < i ==> messages[j].id != id && messages[j].id != p.id.value)
  }

  predicate FirstOfId(messages: seq<Message>, i: nat)
    requires i < |messages|
  {
    forall j :: 0 <= j < i ==> messages[j].id != messages[i].id
  }

  /** The last message is kept exactly when it is the first of its id. */
  lemma DedupedLast(a: seq<Message>)
    requires a != []
    ensures var k := |a| - 1; Deduped(a) == if FirstOfId(a, k) then Deduped(a[..k]) + [a[k]] else Deduped(a[..k])
  {
  }

  lemma FirstOfFront(a: seq<Message>)
    requires a != []
    ensures forall i :: 0 <= i < |a| - 1 ==> (FirstOfId(a, i) <==> FirstOfId(a[..|a| - 1], i))
  {
    forall i | 0 <= i < |a| - 1 ensures FirstOfId(a, i) <==> FirstOfId(a[..|a| - 1], i) {
      assert forall j :: 0 <= j < i ==> a[..|a| - 1][j] == a[j];
    }
  }

  /** The first messages of every id are the same in both lists. */
  predicate SameFirsts(a: seq<Message>, b: seq<Message>)
    requires |a| == |b|
  {
    forall i :: 0 <= i < |a| && FirstOfId(a, i) ==> a[i] == b[i]
  }

  lemma SameFirstsMore(a: seq<Message>, b: seq<Message>)
    requires |a| == |b| && a != []
    ensures var k := |a| - 1; SameFirsts(a, b) <==> SameFirsts(a[..k], b[..k]) && (FirstOfId(a, k) ==> a[k] == b[k])
  {
    FirstOfFront(a);
    hide FirstOfId;
    var k := |a| - 1;
    assert forall i :: 0 <= i < k ==> a[..k][i] == a[i] && b[..k][i] == b[i];
  }

  lemma {:induction false} DedupedEqual(a: seq<Message>, b: seq<Message>)
    requires |a| == |b| && forall i :: 0 <= i < |a| ==> a[i].id == b[i].id
    ensures |Deduped(a)| == |Deduped(b)|
    ensures Deduped(a) == Deduped(b) <==> SameFirsts(a, b)
  {
    if a != [] {
      hide Deduped, FirstOfId, SameFirsts;
      var k := |a| - 1;
      DedupedEqual(a[..k], b[..k]);
      DedupedLast(a);
      DedupedLast(b);
      SameFirstsMore(a, b);
      SameFirst(a, b, k);
      if FirstOfId(a, k) {
        SameLast(Deduped(a[..k]), a[k], Deduped(b[..k]), b[k]);
      }
    }
  }

  lemma SameLast(a: seq<Message>, x: Message, b: seq<Message>, y: Message)
    requires |a| == |b|
    ensures a + [x] == b + [y] <==> a == b && x == y
  {
    assert (a + [x])[..|a|] == a && (b + [y])[..|b|] == b && (a + [x])[|a|] == x && (b + [y])[|b|] == y;
  }

  lemma SameFirst(a: seq<Message>, b: seq<Message>, k: nat)
    requires |a| == |b| && k < |a| && forall i :: 0 <= i < |a| ==> a[i].id == b[i].id
    ensures FirstOfId(a, k) <==> FirstOfId(b, k)
  {
  }

  lemma PatchedRow(t: Thread, id: string, p: Patch, r: nat, i: nat)
    requires Acknowledges(p) && i < |t.messages|
    ensures var a, b := Patched(RaiseRead(t, r), id, p)[i], Patched(t, id, p)[i];
            && a.id == b.id == (if t.messages[i].id == id && p.id.Some? then p.id.value else t.messages[i].id)
            && (a == b <==> t.messages[i].id == id && t.messages[i].outgoing ==>
                  p.serverOrder.value <= t.readThrough || r < p.serverOrder.value || p.status.value == Read)
  {
  }

  /** This user's reading up to r commutes with an acknowledgement if and only if the acknowledged
      order was below the read watermark already, or lies past r, or the status is READ anyway (or the
      patched row is not one of this user's, or is dropped as a duplicate). */
  lemma OwnReadCommutes(t: Thread, id: string, p: Patch, r: nat)
    requires Acknowledges(p)
    ensures PatchMessage(RaiseRead(t, r), id, p) == RaiseRead(PatchMessage(t, id, p), r)
       <==> forall i :: 0 <= i < |t.messages| && Kept(t.messages, id, p, i) && t.messages[i].outgoing ==>
              p.serverOrder.value <= t.readThrough || r < p.serverOrder.value || p.status.value == Read
  {
    hide Deduped, ApplyStored, Merged;
    var a, b := Patched(RaiseRead(t, r), id, p), Patched(t, id, p);
    forall i | 0 <= i < |t.messages|
      ensures a[i].id == b[i].id == (if t.messages[i].id == id && p.id.Some? then p.id.value else t.messages[i].id)
      ensures a[i] == b[i] <==> t.messages[i].id == id && t.messages[i].outgoing ==>
                p.serverOrder.value <= t.readThrough || r < p.serverOrder.value || p.status.value == Read
    {
      PatchedRow(t, id, p, r, i);
    }
    if p.id.Some? {
      DedupedEqual(a, b);
      forall i | 0 <= i < |t.messages| && t.messages[i].id == id
        ensures Kept(t.messages, id, p, i) <==> FirstOfId(a, i)
      {
      }
    }
  }

  /** When they do not commute: the same send, incoming message, own reading and acknowledgement.
      Acknowledged before this user reads, the message stays SENT; acknowledged after, it turns READ,
      and no receipt of the peer is in either run. */
  lemma LateAckTurnsRead(mine: Message, theirs: Message, final: string, order: nat)
    requires mine.outgoing && mine.transport == Ohmf && mine.serverOrder == 0 && mine.status == Sent
    requires !theirs.outgoing && 0 < order <= theirs.serverOrder && mine.createdAt <= theirs.createdAt
    requires mine.id != theirs.id && final != theirs.id
    ensures var ack := Acknowledged(mine.id, Patch(Some(final), Some(order), Some(Sent), Some(Ohmf), None));
            var start := [Appended(mine), ServerCopy(theirs)];
            var sent := mine.(id := final, serverOrder := order);
            && Run(Thread([], 0, 0), start + [ack] + [OwnRead(3)]).messages == [sent, theirs]
            && Run(Thread([], 0, 0), start + [OwnRead(2)] + [ack]).messages == [sent.(status := Read), theirs]
  {
    hide SortByTime, Without, LastIncoming, Run, PatchMessage;
    var t, p := Thread([], 0, 0), Patch(Some(final), Some(order), Some(Sent), Some(Ohmf), None);
    var a, b, ack := Appended(mine), ServerCopy(theirs), Acknowledged(mine.id, p);
    NoEvents(t);
    OneMore(t, [], a);
    OneMore(t, [a], b);
    assert [] + [a] == [a] && [a] + [b] == [a, b];
    OneOrTwo(mine, theirs);
    assert t.messages + [mine] == [mine];
    var u := Run(t, [a, b]);
    assert u == Thread([mine, theirs], 0, 0);
    OneMore(t, [a, b], ack);
    OneMore(t, [a, b], OwnRead(2));
    OneMore(t, [a, b] + [ack], OwnRead(3));
    OneMore(t, [a, b] + [OwnRead(2)], ack);
    assert [a, b][..2] == [a, b] && ([a, b] + [ack])[..3] == [a, b] + [ack];
    assert ([a, b] + [OwnRead(2)])[..3] == [a, b] + [OwnRead(2)];
    AckOfTwo(mine, theirs, p, 0);
    AckOfTwo(mine, theirs, p, theirs.serverOrder);
  }

  lemma AckOfTwo(mine: Message, theirs: Message, p: Patch, through: nat)
    requires mine.outgoing && mine.id != theirs.id && Acknowledges(p) && p.id.Some? && p.id.value != theirs.id
    ensures var acked := Message(p.id.value, true, Ohmf, p.serverOrder.value,
                                 if p.serverOrder.value <= through then Read else p.status.value,
                                 if p.createdAt.Some? then p.createdAt.value else mine.createdAt);
            PatchMessage(Thread([mine, theirs], through, 0), mine.id, p).messages == [acked, theirs]
  {
    hide Deduped;
    var patched := Patched(Thread([mine, theirs], through, 0), mine.id, p);
    assert patched == [patched[0], theirs];
    DedupedTwo(patched[0], theirs);
  }

  lemma DedupedTwo(a: Message, b: Message)
    requires a.id != b.id
    ensures Deduped([a, b]) == [a, b]
  {
    assert [a, b][..1] == [a] && [a][..0] == [];
    assert Deduped([a]) == [a];
  }
}
