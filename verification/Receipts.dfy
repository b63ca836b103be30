/** Delivery states of outgoing messages in the web client: read and delivered checkpoints, the
    stored watermarks, and patching a message when the server acknowledges it late. */
module Receipts {
  import opened Options

  datatype Transport = Ohmf | Sms

  datatype Status = Sent | Delivered | Read | FailDelivery | FailSend

  /** A message that the server has not numbered yet has order 0. */
  datatype Message = Message(
    id: string, outgoing: bool, transport: Transport, serverOrder: nat, status: Status, createdAt: int)

  datatype Thread = Thread(messages: seq<Message>, readThrough: nat, deliveredThrough: nat)

  /** Any kind of receipt other than READ counts as a delivery. */
  datatype Checkpoint = Checkpoint(read: bool, through: int)

  datatype Patch = Patch(
    id: Option<string>, serverOrder: Option<nat>, status: Option<Status>, transport: Option<Transport>, createdAt: Option<int>)

  function Max(a: nat, b: int): nat {
    if b > a then b else a
  }

  /** SMS knows no delivery or read states. */
  function Normalized(transport: Transport, status: Status): Status {
    if transport == Sms && status != FailSend then Sent else status
  }

  // ---- the source's functions ----

  function Checked(m: Message, c: Checkpoint): Message {
    if !m.outgoing || m.serverOrder > c.through then m
    else if c.read then m.(status := Read)
    else if Normalized(m.transport, m.status) == Read then m
    else m.(status := Delivered)
  }

  function ApplyCheckpoint(t: Thread, c: Checkpoint): Thread {
    Thread(seq(|t.messages|, i requires 0 <= i < |t.messages| => Checked(t.messages[i], c)),
           if c.read then Max(t.readThrough, c.through) else t.readThrough,
           Max(t.deliveredThrough, c.through))
  }

  function ApplyStored(t: Thread, m: Message): Message {
    if !m.outgoing || m.serverOrder == 0 then m
    else if t.readThrough != 0 && m.serverOrder <= t.readThrough then m.(status := Read)
    else if t.deliveredThrough != 0 && m.serverOrder <= t.deliveredThrough then
      if Normalized(m.transport, m.status) == Read then m else m.(status := Delivered)
    else m
  }

  function Merged(m: Message, p: Patch): Message {
    var transport := if p.transport.Some? then p.transport.value else m.transport;
    var status := if p.status.Some? then p.status.value else m.status;
    Message(if p.id.Some? then p.id.value else m.id, m.outgoing, transport,
            if p.serverOrder.Some? then p.serverOrder.value else m.serverOrder, Normalized(transport, status),
            if p.createdAt.Some? then p.createdAt.value else m.createdAt)
  }

  /** Keeps the first message of each id. */
  function Deduped(messages: seq<Message>): seq<Message> {
    if messages == [] then []
    else
      var front, last := Deduped(messages[..|messages| - 1]), messages[|messages| - 1];
      if exists i :: 0 <= i < |messages| - 1 && messages[i].id == last.id then front else front + [last]
  }

  function Patched(t: Thread, id: string, p: Patch): seq<Message> {
    seq(|t.messages|, i requires 0 <= i < |t.messages| =>
      if t.messages[i].id == id then ApplyStored(t, Merged(t.messages[i], p)) else t.messages[i])
  }

  function PatchMessage(t: Thread, id: string, p: Patch): Thread {
    t.(messages := if p.id.Some? then Deduped(Patched(t, id, p)) else Patched(t, id, p))
  }

  function ApplyAll(t: Thread, cs: seq<Checkpoint>): Thread {
    if cs == [] then t else ApplyCheckpoint(ApplyAll(t, cs[..|cs| - 1]), cs[|cs| - 1])
  }

  // ---- convergence ----

  predicate CoveredBy(order: nat, cs: seq<Checkpoint>, onlyRead: bool) {
    exists i :: 0 <= i < |cs| && order <= cs[i].through && (onlyRead ==> cs[i].read)
  }

  /** The status in closed form: only which checkpoints there were counts. */
  function Settled(m: Message, cs: seq<Checkpoint>): Status {
    if !m.outgoing then m.status
    else if CoveredBy(m.serverOrder, cs, true) then Read
    else if CoveredBy(m.serverOrder, cs, false) && m.status != Read then Delivered
    else m.status
  }

  lemma CoveredMore(order: nat, cs: seq<Checkpoint>, onlyRead: bool)
    requires cs != []
    ensures var c := cs[|cs| - 1];
            CoveredBy(order, cs, onlyRead)
            <==> CoveredBy(order, cs[..|cs| - 1], onlyRead) || (order <= c.through && (onlyRead ==> c.read))
  {
  }

  /** After any run of checkpoints every OHMF message has its closed-form status. */
  lemma {:induction false} CheckpointsSettle(t: Thread, cs: seq<Checkpoint>, i: nat)
    requires i < |t.messages| && t.messages[i].transport == Ohmf
    ensures |ApplyAll(t, cs).messages| == |t.messages|
    ensures ApplyAll(t, cs).messages[i] == t.messages[i].(status := Settled(t.messages[i], cs))
  {
    if cs != [] {
      CheckpointsSettle(t, cs[..|cs| - 1], i);
      CoveredMore(t.messages[i].serverOrder, cs, true);
      CoveredMore(t.messages[i].serverOrder, cs, false);
    }
  }

  /** A watermark covers an order exactly when it did before or one of its checkpoints does. */
  lemma {:induction false} WatermarksSettle(t: Thread, cs: seq<Checkpoint>, order: nat)
    ensures |ApplyAll(t, cs).messages| == |t.messages|
    ensures order > 0 ==>
              (order <= ApplyAll(t, cs).readThrough <==> order <= t.readThrough || CoveredBy(order, cs, true))
    ensures order > 0 ==>
              (order <= ApplyAll(t, cs).deliveredThrough <==> order <= t.deliveredThrough || CoveredBy(order, cs, false))
  {
    if cs != [] {
      WatermarksSettle(t, cs[..|cs| - 1], order);
      CoveredMore(order, cs, true);
      CoveredMore(order, cs, false);
    }
  }

  lemma SameCover(order: nat, cs: seq<Checkpoint>, ds: seq<Checkpoint>, onlyRead: bool)
    requires forall c :: c in cs ==> c in ds
    ensures CoveredBy(order, cs, onlyRead) ==> CoveredBy(order, ds, onlyRead)
  {
    if CoveredBy(order, cs, onlyRead) {
      var i :| 0 <= i < |cs| && order <= cs[i].through && (onlyRead ==> cs[i].read);
      assert cs[i] in ds;
      var j :| 0 <= j < |ds| && ds[j] == cs[i];
    }
  }

  /** A checkpoint of a kind other than READ covers the order. */
  predicate DeliveredBy(order: nat, cs: seq<Checkpoint>) {
    exists i :: 0 <= i < |cs| && order <= cs[i].through && !cs[i].read
  }

  /** The message went by SMS and is covered by both kinds of checkpoint. */
  predicate Contested(m: Message, cs: seq<Checkpoint>) {
    m.outgoing && m.transport == Sms && CoveredBy(m.serverOrder, cs, true) && DeliveredBy(m.serverOrder, cs)
  }

  predicate NoneContested(t: Thread, cs: seq<Checkpoint>) {
    forall i :: 0 <= i < |t.messages| ==> !Contested(t.messages[i], cs)
  }

  /** For an SMS message the last checkpoint that covers it decides. */
  function SmsSettled(m: Message, cs: seq<Checkpoint>): Status {
    if cs == [] then m.status
    else
      var c := cs[|cs| - 1];
      if m.outgoing && m.serverOrder <= c.through then if c.read then Read else Delivered
      else SmsSettled(m, cs[..|cs| - 1])
  }

  lemma {:induction false} SmsSettle(t: Thread, cs: seq<Checkpoint>, i: nat)
    requires i < |t.messages| && t.messages[i].transport == Sms
    ensures |ApplyAll(t, cs).messages| == |t.messages|
    ensures ApplyAll(t, cs).messages[i] == t.messages[i].(status := SmsSettled(t.messages[i], cs))
  {
    if cs != [] {
      SmsSettle(t, cs[..|cs| - 1], i);
    }
  }

  lemma DeliveredMore(order: nat, cs: seq<Checkpoint>)
    requires cs != []
    ensures var c := cs[|cs| - 1];
            DeliveredBy(order, cs) <==> DeliveredBy(order, cs[..|cs| - 1]) || (order <= c.through && !c.read)
  {
    var front := cs[..|cs| - 1];
    assert forall i :: 0 <= i < |front| ==> front[i] == cs[i];
  }

  /** An uncontested SMS message settles by which kinds of checkpoint cover it. */
  lemma {:induction false} UncontestedSettles(m: Message, cs: seq<Checkpoint>)
    requires m.transport == Sms && m.outgoing && !Contested(m, cs)
    ensures SmsSettled(m, cs)
         == if CoveredBy(m.serverOrder, cs, true) then Read else if DeliveredBy(m.serverOrder, cs) then Delivered else m.status
  {
    if cs != [] {
      hide CoveredBy, DeliveredBy;
      CoveredMore(m.serverOrder, cs, true);
      DeliveredMore(m.serverOrder, cs);
      UncontestedSettles(m, cs[..|cs| - 1]);
    } else {
      assert !CoveredBy(m.serverOrder, cs, true) && !DeliveredBy(m.serverOrder, cs);
    }
  }

  lemma SameDelivered(order: nat, cs: seq<Checkpoint>, ds: seq<Checkpoint>)
    requires forall c :: c in cs ==> c in ds
    ensures DeliveredBy(order, cs) ==> DeliveredBy(order, ds)
  {
    if DeliveredBy(order, cs) {
      var i :| 0 <= i < |cs| && order <= cs[i].through && !cs[i].read;
      assert cs[i] in ds;
      var j :| 0 <= j < |ds| && ds[j] == cs[i];
    }
  }

  /** Convergence: the same checkpoints in any order and with any repetitions leave the same
      thread, as long as no SMS message is covered by both kinds. */
  lemma CheckpointsConverge(t: Thread, cs: seq<Checkpoint>, ds: seq<Checkpoint>)
    requires NoneContested(t, cs)
    requires forall c :: c in cs <==> c in ds
    ensures ApplyAll(t, cs) == ApplyAll(t, ds)
  {
    hide ApplyAll, Contested;
    var a, b := ApplyAll(t, cs), ApplyAll(t, ds);
    WatermarksSettle(t, cs, 1);
    WatermarksSettle(t, ds, 1);
    forall i | 0 <= i < |t.messages| ensures a.messages[i] == b.messages[i] {
      if t.messages[i].transport == Ohmf {
        CheckpointsSettle(t, cs, i);
        CheckpointsSettle(t, ds, i);
        SameSettled(t.messages[i], cs, ds);
      } else {
        SmsSettle(t, cs, i);
        SmsSettle(t, ds, i);
        SameSmsSettled(t.messages[i], cs, ds);
      }
    }
    SameWatermarks(t, cs, ds);
    SameWatermarks(t, ds, cs);
    assert a.messages == b.messages;
  }

  lemma SameSmsSettled(m: Message, cs: seq<Checkpoint>, ds: seq<Checkpoint>)
    requires m.transport == Sms && !Contested(m, cs) && forall c :: c in cs <==> c in ds
    ensures SmsSettled(m, cs) == SmsSettled(m, ds)
  {
    hide CoveredBy, DeliveredBy;
    if m.outgoing {
      SameCover(m.serverOrder, cs, ds, true);
      SameCover(m.serverOrder, ds, cs, true);
      SameDelivered(m.serverOrder, cs, ds);
      SameDelivered(m.serverOrder, ds, cs);
      UncontestedSettles(m, cs);
      UncontestedSettles(m, ds);
    } else {
      NotOurs(m, cs);
      NotOurs(m, ds);
    }
  }

  lemma {:induction false} NotOurs(m: Message, cs: seq<Checkpoint>)
    requires !m.outgoing
    ensures SmsSettled(m, cs) == m.status
  {
    if cs != [] {
      NotOurs(m, cs[..|cs| - 1]);
    }
  }

  function MovedLast(cs: seq<Checkpoint>, k: nat): seq<Checkpoint>
    requires k < |cs|
  {
    cs[..k] + cs[k + 1..] + [cs[k]]
  }

  lemma MovedIsPermutation(cs: seq<Checkpoint>, k: nat)
    requires k < |cs|
    ensures multiset(MovedLast(cs, k)) == multiset(cs)
  {
    assert cs == cs[..k] + [cs[k]] + cs[k + 1..];
  }

  /** All orders of a list of checkpoints agree on a thread if and only if none of its SMS messages
      is covered by both a READ and another checkpoint. */
  lemma ConvergesExactly(t: Thread, cs: seq<Checkpoint>)
    ensures (forall ds :: multiset(ds) == multiset(cs) ==> ApplyAll(t, ds) == ApplyAll(t, cs)) <==> NoneContested(t, cs)
  {
    hide ApplyAll, SmsSettled;
    if NoneContested(t, cs) {
      forall ds | multiset(ds) == multiset(cs) ensures ApplyAll(t, ds) == ApplyAll(t, cs) {
        assert forall c :: c in cs <==> c in multiset(cs);
        assert forall c :: c in ds <==> c in multiset(ds);
        CheckpointsConverge(t, cs, ds);
      }
    } else {
      var i :| 0 <= i < |t.messages| && Contested(t.messages[i], cs);
      var order := t.messages[i].serverOrder;
      var a :| 0 <= a < |cs| && order <= cs[a].through && cs[a].read;
      var b :| 0 <= b < |cs| && order <= cs[b].through && !cs[b].read;
      MovedIsPermutation(cs, a);
      MovedIsPermutation(cs, b);
      SmsSettle(t, MovedLast(cs, a), i);
      SmsSettle(t, MovedLast(cs, b), i);
      LastDecides(t.messages[i], MovedLast(cs, a));
      LastDecides(t.messages[i], MovedLast(cs, b));
      assert ApplyAll(t, MovedLast(cs, a)) != ApplyAll(t, MovedLast(cs, b));
    }
  }

  lemma LastDecides(m: Message, cs: seq<Checkpoint>)
    requires cs != [] && m.outgoing && m.serverOrder <= cs[|cs| - 1].through
    ensures SmsSettled(m, cs) == if cs[|cs| - 1].read then Read else Delivered
  {
  }

  lemma SameSettled(m: Message, cs: seq<Checkpoint>, ds: seq<Checkpoint>)
    requires forall c :: c in cs <==> c in ds
    ensures Settled(m, cs) == Settled(m, ds)
  {
    hide CoveredBy;
    SameCover(m.serverOrder, cs, ds, true);
    SameCover(m.serverOrder, ds, cs, true);
    SameCover(m.serverOrder, cs, ds, false);
    SameCover(m.serverOrder, ds, cs, false);
  }

  lemma SameWatermarks(t: Thread, cs: seq<Checkpoint>, ds: seq<Checkpoint>)
    requires forall c :: c in cs ==> c in ds
    ensures ApplyAll(t, cs).readThrough <= ApplyAll(t, ds).readThrough
    ensures ApplyAll(t, cs).deliveredThrough <= ApplyAll(t, ds).deliveredThrough
  {
    hide ApplyAll, CoveredBy;
    var r, d := ApplyAll(t, cs).readThrough, ApplyAll(t, cs).deliveredThrough;
    WatermarksSettle(t, cs, r);
    WatermarksSettle(t, ds, r);
    SameCover(r, cs, ds, true);
    WatermarksSettle(t, cs, d);
    WatermarksSettle(t, ds, d);
    SameCover(d, cs, ds, false);
  }

  /** On a thread without watermarks the result depends on two numbers only: a numbered message
      is read up to the one watermark and delivered up to the other. */
  lemma TwoMaxima(t: Thread, cs: seq<Checkpoint>, i: nat)
    requires i < |t.messages| && t.messages[i].outgoing && t.messages[i].transport == Ohmf && t.messages[i].serverOrder > 0
    requires t.readThrough == 0 && t.deliveredThrough == 0
    ensures var m, n := t.messages[i], ApplyAll(t, cs);
            && |n.messages| == |t.messages|
            && n.messages[i] == m.(status :=
                 if m.serverOrder <= n.readThrough then Read
                 else if m.serverOrder <= n.deliveredThrough && m.status != Read then Delivered
                 else m.status)
  {
  }

  /** A witness for `ConvergesExactly`: two checkpoints and an SMS message. */
  lemma SmsDoesNotConverge()
    ensures var t := Thread([Message("m", true, Sms, 1, Sent, 0)], 0, 0);
            var read, delivered := Checkpoint(true, 1), Checkpoint(false, 1);
            && ApplyAll(t, [read, delivered]).messages == [Message("m", true, Sms, 1, Delivered, 0)]
            && ApplyAll(t, [delivered, read]).messages == [Message("m", true, Sms, 1, Read, 0)]
  {
    var t := Thread([Message("m", true, Sms, 1, Sent, 0)], 0, 0);
    var read, delivered := Checkpoint(true, 1), Checkpoint(false, 1);
    assert ApplyAll(t, []) == t;
    assert [read, delivered][..1] == [read] && [read][..0] == [];
    assert [delivered, read][..1] == [delivered] && [delivered][..0] == [];
    assert ApplyAll(t, [read]) == ApplyCheckpoint(t, read);
    assert ApplyAll(t, [delivered]) == ApplyCheckpoint(t, delivered);
  }

  // ---- a late acknowledgement ----

  /** The server has numbered the message and it went by OHMF. */
  predicate Acknowledges(p: Patch) {
    p.serverOrder.Some? && p.serverOrder.value > 0 && p.status.Some? && p.transport == Some(Ohmf)
  }

  lemma {:induction false} DedupedChecked(messages: seq<Message>, checked: seq<Message>, c: Checkpoint)
    requires |checked| == |messages| && forall i :: 0 <= i < |messages| ==> checked[i] == Checked(messages[i], c)
    ensures |Deduped(checked)| == |Deduped(messages)|
    ensures forall i :: 0 <= i < |Deduped(messages)| ==> Deduped(checked)[i] == Checked(Deduped(messages)[i], c)
  {
    if messages != [] {
      DedupedChecked(messages[..|messages| - 1], checked[..|checked| - 1], c);
      assert forall i :: 0 <= i < |messages| ==> checked[i].id == messages[i].id;
    }
  }

  lemma AckThenCheckpoint(t: Thread, m: Message, p: Patch, c: Checkpoint)
    requires Acknowledges(p)
    ensures Checked(ApplyStored(t, Merged(m, p)), c) == ApplyStored(ApplyCheckpoint(t, c), Merged(Checked(m, c), p))
  {
  }

  /** An acknowledgement commutes with every checkpoint. */
  lemma AckCommutes(t: Thread, id: string, p: Patch, c: Checkpoint)
    requires Acknowledges(p)
    ensures ApplyCheckpoint(PatchMessage(t, id, p), c) == PatchMessage(ApplyCheckpoint(t, c), id, p)
  {
    hide ApplyStored, Merged, Checked, Deduped;
    var a, b := Patched(t, id, p), Patched(ApplyCheckpoint(t, c), id, p);
    forall i | 0 <= i < |a| ensures b[i] == Checked(a[i], c) {
      AckThenCheckpoint(t, t.messages[i], p, c);
      KeepsId(t.messages[i], c);
    }
    DedupedChecked(a, b, c);
    assert ApplyCheckpoint(PatchMessage(t, id, p), c).messages == PatchMessage(ApplyCheckpoint(t, c), id, p).messages;
  }

  lemma KeepsId(m: Message, c: Checkpoint)
    ensures Checked(m, c).id == m.id
  {
  }

  /** Wherever the late acknowledgement falls among the checkpoints, the thread ends up the same. */
  lemma {:induction false} AckAnywhere(t: Thread, id: string, p: Patch, before: seq<Checkpoint>, after: seq<Checkpoint>)
    requires Acknowledges(p)
    ensures ApplyAll(PatchMessage(ApplyAll(t, before), id, p), after) == PatchMessage(ApplyAll(t, before + after), id, p)
  {
    hide PatchMessage, ApplyCheckpoint;
    if after == [] {
      assert before + after == before;
    } else {
      var front, c := after[..|after| - 1], after[|after| - 1];
      AckAnywhere(t, id, p, before, front);
      AckCommutes(ApplyAll(t, before + front), id, p, c);
      assert (before + after)[..|before + after| - 1] == before + front;
    }
  }

  /** The position of the first message with an id, or the length of the list. */
  function FirstAt(messages: seq<Message>, id: string): (k: nat)
    ensures k <= |messages|
    ensures k < |messages| ==> messages[k].id == id
    ensures forall i :: 0 <= i < k ==> messages[i].id != id
  {
    if messages == [] then 0
    else
      var k := FirstAt(messages[..|messages| - 1], id);
      if k < |messages| - 1 || messages[|messages| - 1].id == id then k else |messages|
  }

  function Row(messages: seq<Message>, id: string): Option<Message> {
    var k := FirstAt(messages, id);
    if k < |messages| then Some(messages[k]) else None
  }

  lemma FirstIs(messages: seq<Message>, id: string, k: nat)
    requires k < |messages| && messages[k].id == id && forall i :: 0 <= i < k ==> messages[i].id != id
    ensures Row(messages, id) == Some(messages[k])
  {
  }

  lemma DedupedMore(front: seq<Message>, last: Message)
    ensures Deduped(front + [last]) == if Row(front, last.id).Some? then Deduped(front) else Deduped(front) + [last]
  {
    hide FirstAt;
    var messages := front + [last];
    assert messages[..|messages| - 1] == front;
    var k := FirstAt(front, last.id);
    if k < |front| {
      assert messages[k].id == last.id;
    } else {
      assert forall i :: 0 <= i < |messages| - 1 ==> messages[i] == front[i];
    }
  }

  /** Removing duplicates keeps the first row of every id, and only one. */
  lemma {:induction false} DedupedRow(messages: seq<Message>, id: string)
    ensures Row(Deduped(messages), id) == Row(messages, id)
    ensures forall m :: m in Deduped(messages) && m.id == id ==> Row(messages, id) == Some(m)
  {
    if messages != [] {
      hide FirstAt, Row, Deduped;
      var front, last := messages[..|messages| - 1], messages[|messages| - 1];
      DedupedRow(front, id);
      RowOfMore(front, last, id);
      RowOfMore(Deduped(front), last, id);
      DedupedMore(front, last);
      assert messages == front + [last];
    }
  }

  lemma RowOfMore(front: seq<Message>, last: Message, id: string)
    ensures Row(front + [last], id)
         == if Row(front, id).Some? then Row(front, id) else if last.id == id then Some(last) else None
  {
    assert (front + [last])[..|front|] == front;
  }

  /** The row an acknowledgement leaves under the message's final id: the acknowledged message, with
      the status that goes with its server order and the final watermarks, if and only if no row
      with that id stood in front of it; otherwise the row that stood there, as it was. */
  lemma AckedStatus(t: Thread, id: string, p: Patch, before: seq<Checkpoint>, after: seq<Checkpoint>)
    requires Acknowledges(p) && FirstAt(t.messages, id) < |t.messages| && t.messages[FirstAt(t.messages, id)].outgoing
    ensures var final, u := ApplyAll(PatchMessage(ApplyAll(t, before), id, p), after), ApplyAll(t, before + after);
            var newId := if p.id.Some? then p.id.value else id;
            var j, k := FirstAt(t.messages, newId), FirstAt(t.messages, id);
            && |u.messages| == |t.messages| && final.readThrough == u.readThrough && final.deliveredThrough == u.deliveredThrough
            && Row(final.messages, newId) == Some(
                 if newId != id && j < k then u.messages[j]
                 else Message(newId, true, Ohmf, p.serverOrder.value,
                              if p.serverOrder.value <= final.readThrough then Read
                              else if p.serverOrder.value <= final.deliveredThrough && p.status.value != Read then Delivered
                              else p.status.value,
                              if p.createdAt.Some? then p.createdAt.value else t.messages[k].createdAt))
            && (p.id.Some? ==> forall m :: m in final.messages && m.id == newId ==> Row(final.messages, newId) == Some(m))
  {
    hide ApplyAll, Deduped, FirstAt, Row;
    var u, newId := ApplyAll(t, before + after), if p.id.Some? then p.id.value else id;
    var j, k := FirstAt(t.messages, newId), FirstAt(t.messages, id);
    AckAnywhere(t, id, p, before, after);
    SameMessages(t, before + after, k);
    PatchedIds(t, before + after, id, p);
    var patched := Patched(u, id, p);
    if newId != id && j < k {
      FirstIs(patched, newId, j);
    } else {
      FirstIs(patched, newId, k);
    }
    DedupedRow(patched, newId);
  }

  /** Which id each row has after the patch, and that the other rows are as they were. */
  lemma PatchedIds(t: Thread, cs: seq<Checkpoint>, id: string, p: Patch)
    ensures var u, newId := ApplyAll(t, cs), if p.id.Some? then p.id.value else id;
            && |Patched(u, id, p)| == |u.messages| == |t.messages|
            && forall i :: 0 <= i < |t.messages| ==>
                 && Patched(u, id, p)[i].id == (if t.messages[i].id == id then newId else t.messages[i].id)
                 && u.messages[i].createdAt == t.messages[i].createdAt
                 && (t.messages[i].id != id ==> Patched(u, id, p)[i] == u.messages[i])
  {
    hide ApplyAll;
    WatermarksSettle(t, cs, 0);
    forall i | 0 <= i < |t.messages| ensures ApplyAll(t, cs).messages[i].id == t.messages[i].id
                                          && ApplyAll(t, cs).messages[i].createdAt == t.messages[i].createdAt {
      SameMessages(t, cs, i);
    }
  }

  lemma {:induction false} SameMessages(t: Thread, cs: seq<Checkpoint>, k: nat)
    requires k < |t.messages|
    ensures |ApplyAll(t, cs).messages| == |t.messages|
    ensures ApplyAll(t, cs).messages[k] == t.messages[k].(status := ApplyAll(t, cs).messages[k].status)
  {
    if cs != [] {
      SameMessages(t, cs[..|cs| - 1], k);
    }
  }

  /** A patched SMS message that is not numbered below a watermark shows a failed send or nothing, whatever
      status the patch carries. */
  lemma PatchedSms(t: Thread, id: string, p: Patch, i: nat)
    requires i < |t.messages| && t.messages[i].id == id
    requires (if p.transport.Some? then p.transport.value else t.messages[i].transport) == Sms
    requires var order := if p.serverOrder.Some? then p.serverOrder.value else t.messages[i].serverOrder;
             order == 0 || (order > t.readThrough && order > t.deliveredThrough)
    ensures var m, n := t.messages[i], Patched(t, id, p)[i];
            && n.transport == Sms && n.outgoing == m.outgoing && n.id == (if p.id.Some? then p.id.value else id)
            && n.status == (if (if p.status.Some? then p.status.value else m.status) == FailSend then FailSend else Sent)
  {
  }

  // ---- a failed send ----

  lemma {:induction false} FailureCovered(t: Thread, cs: seq<Checkpoint>, k: nat)
    requires k < |t.messages| && t.messages[k].outgoing
    ensures |ApplyAll(t, cs).messages| == |t.messages|
    ensures ApplyAll(t, cs).messages[k].status == FailSend
       <==> t.messages[k].status == FailSend && !CoveredBy(t.messages[k].serverOrder, cs, false)
  {
    if cs != [] {
      FailureCovered(t, cs[..|cs| - 1], k);
      SameMessages(t, cs[..|cs| - 1], k);
      CoveredMore(t.messages[k].serverOrder, cs, false);
    }
  }

  /** A failed send is not an acknowledgement: after it the message shows the failure if and only
      if it is not numbered below a watermark already and no later checkpoint covers its order. A
      message the server never numbered has order zero, which every real checkpoint covers. */
  lemma FailedSendShown(t: Thread, k: nat, transport: Option<Transport>, cs: seq<Checkpoint>)
    requires k < |t.messages| && t.messages[k].outgoing
    ensures var m, failed := t.messages[k], Patch(None, None, Some(FailSend), transport, None);
            var final := ApplyAll(PatchMessage(t, m.id, failed), cs);
            && |final.messages| == |t.messages|
            && (final.messages[k].status == FailSend
                <==> !(0 < m.serverOrder <= t.readThrough) && !(0 < m.serverOrder <= t.deliveredThrough)
                     && !CoveredBy(m.serverOrder, cs, false))
  {
    FailureCovered(PatchMessage(t, t.messages[k].id, Patch(None, None, Some(FailSend), transport, None)), cs, k);
  }
}
