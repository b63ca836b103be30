/** One-time prekeys: the client keeps a stock of them topped up, the server stores what the
    client uploads and hands out the oldest unclaimed one of each device. */
module Prekeys {
  import opened Options

  type DeviceId = nat
  type PrekeyId = int
  type PublicKey = string
  type Time = int

  // ---- the client's stock ----

  datatype Prekey = Prekey(id: PrekeyId, key: PublicKey, consumed: bool)

  type Stock = map<PrekeyId, Prekey>

  function Available(s: Stock): set<PrekeyId> {
    set id | id in s && !s[id].consumed
  }

  /** Every id in the stock was handed out by the counter. */
  predicate Numbered(s: Stock, next: PrekeyId) {
    forall id :: id in s ==> id < next
  }

  class PrekeyStock {
    var stock: Stock
    var nextPrekeyId: PrekeyId

    constructor ()
      ensures stock == map[] && nextPrekeyId == 1
    {
      stock, nextPrekeyId := map[], 1;
    }

    /** Generates prekeys under consecutive new ids until `minimum` are available. No prekey that
        was there before is touched, so an id once used never names another key. */
    method TopUp(minimum: int, generated: seq<PublicKey>)
      requires Numbered(stock, nextPrekeyId) && |generated| >= minimum
      modifies this
      ensures Numbered(stock, nextPrekeyId)
      ensures forall id :: id in old(stock) ==> id in stock && stock[id] == old(stock)[id]
      ensures forall id :: id in stock && id !in old(stock) <==> old(nextPrekeyId) <= id < nextPrekeyId
      ensures forall id :: old(nextPrekeyId) <= id < nextPrekeyId ==>
                var k := |Available(old(stock))| + id - old(nextPrekeyId);
                k < |generated| && stock[id] == Prekey(id, generated[k], false)
      ensures var n := |Available(old(stock))|; |Available(stock)| == if n < minimum then minimum else n
      ensures nextPrekeyId - old(nextPrekeyId) == |Available(stock)| - |Available(old(stock))|
    {
      hide Available;
      var available := |Available(stock)|;
      var index := available;
      while index < minimum
        invariant available <= index && (available < minimum ==> index <= minimum) && (available >= minimum ==> index == available)
        invariant Numbered(stock, nextPrekeyId) && nextPrekeyId == old(nextPrekeyId) + (index - available)
        invariant forall id :: id in old(stock) ==> id in stock && stock[id] == old(stock)[id]
        invariant forall id :: id in stock && id !in old(stock) <==> old(nextPrekeyId) <= id < nextPrekeyId
        invariant forall id :: old(nextPrekeyId) <= id < nextPrekeyId ==>
                    stock[id] == Prekey(id, generated[available + id - old(nextPrekeyId)], false)
        invariant |Available(stock)| == index
      {
        AvailableMore(stock, nextPrekeyId, Prekey(nextPrekeyId, generated[index], false));
        stock := stock[nextPrekeyId := Prekey(nextPrekeyId, generated[index], false)];
        nextPrekeyId := nextPrekeyId + 1;
        index := index + 1;
      }
    }
  }

  lemma AvailableMore(s: Stock, id: PrekeyId, p: Prekey)
    requires id !in s && !p.consumed
    ensures |Available(s[id := p])| == |Available(s)| + 1
  {
    assert Available(s[id := p]) == Available(s) + {id};
  }

  // ---- the server's table ----

  datatype Name = Name(device: DeviceId, id: PrekeyId)

  datatype Row = Row(key: PublicKey, consumed: bool, createdAt: Time)

  type Table = map<Name, Row>

  datatype Item = Item(id: PrekeyId, key: PublicKey)

  predicate ValidItem(i: Item) {
    i.id > 0 && i.key != ""
  }

  /** An uploaded prekey becomes available again, even one that was claimed before. */
  function Stored(t: Table, device: DeviceId, i: Item, now: Time): Table {
    var name := Name(device, i.id);
    t[name := Row(i.key, false, if name in t then t[name].createdAt else now)]
  }

  function Uploaded(t: Table, device: DeviceId, items: seq<Item>, now: Time): Table {
    if items == [] then t
    else Stored(Uploaded(t, device, items[..|items| - 1], now), device, items[|items| - 1], now)
  }

  predicate Claimable(t: Table, device: DeviceId, id: PrekeyId) {
    Name(device, id) in t && !t[Name(device, id)].consumed
  }

  /** What a claim may return: an unclaimed prekey none of the others is older than. */
  ghost predicate Oldest(t: Table, device: DeviceId, claimed: Option<PrekeyId>) {
    match claimed
    case None => forall id :: !Claimable(t, device, id)
    case Some(c) =>
      Claimable(t, device, c)
      && forall id :: Claimable(t, device, id) ==> t[Name(device, c)].createdAt <= t[Name(device, id)].createdAt
  }

  function Claimed(t: Table, device: DeviceId, claimed: Option<PrekeyId>): Table {
    match claimed
    case None => t
    case Some(c) => if Name(device, c) in t then t[Name(device, c) := t[Name(device, c)].(consumed := true)] else t
  }

  datatype Bundle = Bundle(device: DeviceId, claimed: Option<PrekeyId>)

  class PrekeyTable {
    var rows: Table

    constructor ()
      ensures rows == map[]
    {
      rows := map[];
    }

    /** One invalid item undoes the whole upload. */
    method InsertPrekeys(device: DeviceId, items: seq<Item>, now: Time) returns (ok: bool)
      modifies this
      ensures ok <==> forall i :: 0 <= i < |items| ==> items[i].id > 0 && items[i].key != ""
      ensures rows == if ok then Uploaded(old(rows), device, items, now) else old(rows)
    {
      var before := rows;
      for i := 0 to |items|
        invariant rows == Uploaded(before, device, items[..i], now)
        invariant forall j :: 0 <= j < i ==> ValidItem(items[j])
      {
        if items[i].id <= 0 || items[i].key == "" {
          rows := before;
          return false;
        }
        rows := Stored(rows, device, items[i], now);
        assert items[..i + 1][..i] == items[..i];
      }
      assert items[..|items|] == items;
      return true;
    }

    method ClaimOldest(device: DeviceId) returns (claimed: Option<PrekeyId>)
      modifies this
      ensures Oldest(old(rows), device, claimed) && rows == Claimed(old(rows), device, claimed)
    {
      claimed := None;
      var rest := rows.Keys;
      while rest != {}
        invariant rest <= rows.Keys && rows == old(rows)
        invariant claimed.None? ==> forall id :: Claimable(rows, device, id) ==> Name(device, id) in rest
        invariant claimed.Some? ==>
                    && Claimable(rows, device, claimed.value)
                    && forall id :: Claimable(rows, device, id) && Name(device, id) !in rest ==>
                         rows[Name(device, claimed.value)].createdAt <= rows[Name(device, id)].createdAt
        decreases |rest|
      {
        var name :| name in rest;
        if name.device == device && !rows[name].consumed {
          if claimed.None? || rows[name].createdAt < rows[Name(device, claimed.value)].createdAt {
            claimed := Some(name.id);
          }
        }
        rest := rest - {name};
      }
      if claimed.Some? {
        var name := Name(device, claimed.value);
        rows := rows[name := rows[name].(consumed := true)];
      }
    }

    /** One prekey for each bundle that has one left, written into the list in place. */
    method ClaimBundles(out: array<Bundle>)
      requires forall i, j :: 0 <= i < j < out.Length ==> out[i].device != out[j].device
      modifies this, out
      ensures forall i :: 0 <= i < out.Length ==>
                out[i].device == old(out[i].device) && Oldest(old(rows), out[i].device, out[i].claimed)
      ensures rows.Keys == old(rows).Keys
      ensures forall name :: name in rows ==>
                rows[name] == if exists i :: 0 <= i < out.Length && out[i] == Bundle(name.device, Some(name.id))
                              then old(rows)[name].(consumed := true) else old(rows)[name]
    {
      hide Oldest;
      for i := 0 to out.Length
        invariant forall j :: 0 <= j < out.Length ==> out[j].device == old(out[j].device)
        invariant forall j :: 0 <= j < i ==> Oldest(old(rows), out[j].device, out[j].claimed)
        invariant rows.Keys == old(rows).Keys
        invariant forall name :: name in rows && (forall j :: 0 <= j < i ==> out[j].device != name.device) ==>
                    rows[name] == old(rows)[name]
        invariant forall name :: name in rows ==>
                    rows[name] == if exists j :: 0 <= j < i && out[j] == Bundle(name.device, Some(name.id))
                                  then old(rows)[name].(consumed := true) else old(rows)[name]
      {
        var device := out[i].device;
        ghost var before := rows;
        var claimed := ClaimOldest(device);
        SameOldest(before, old(rows), device, claimed);
        out[i] := out[i].(claimed := claimed);
      }
    }
  }

  lemma SameOldest(t: Table, u: Table, device: DeviceId, claimed: Option<PrekeyId>)
    requires t.Keys == u.Keys && forall name :: name in t && name.device == device ==> t[name] == u[name]
    requires Oldest(t, device, claimed)
    ensures Oldest(u, device, claimed) && (claimed.Some? ==> Name(device, claimed.value) in t)
  {
    assert forall id :: Claimable(t, device, id) <==> Claimable(u, device, id);
  }

  // ---- whole runs ----

  datatype Request =
    | Uploading(device: DeviceId, items: seq<Item>, now: Time)
    | Claiming(device: DeviceId, claimed: Option<PrekeyId>)

  /** An upload with an invalid item is refused as a whole and is no step. */
  ghost predicate Enabled(t: Table, r: Request) {
    match r
    case Uploading(_, items, _) => forall i :: 0 <= i < |items| ==> ValidItem(items[i])
    case Claiming(device, claimed) => Oldest(t, device, claimed)
  }

  function Next(t: Table, r: Request): Table {
    match r
    case Uploading(device, items, now) => Uploaded(t, device, items, now)
    case Claiming(device, claimed) => Claimed(t, device, claimed)
  }

  function After(rs: seq<Request>, k: nat): Table
    requires k <= |rs|
  {
    if k == 0 then map[] else Next(After(rs, k - 1), rs[k - 1])
  }

  ghost predicate IsRun(rs: seq<Request>) {
    forall i :: 0 <= i < |rs| ==> Enabled(After(rs, i), rs[i])
  }

  predicate Uploads(r: Request, device: DeviceId, id: PrekeyId) {
    r.Uploading? && r.device == device && exists i :: 0 <= i < |r.items| && r.items[i].id == id
  }

  lemma {:induction false} UploadedRow(t: Table, device: DeviceId, items: seq<Item>, now: Time, name: Name)
    ensures (device == name.device && exists i :: 0 <= i < |items| && items[i].id == name.id) ==>
              name in Uploaded(t, device, items, now) && !Uploaded(t, device, items, now)[name].consumed
    ensures !(device == name.device && exists i :: 0 <= i < |items| && items[i].id == name.id) ==>
              && (name in Uploaded(t, device, items, now) <==> name in t)
              && (name in t ==> Uploaded(t, device, items, now)[name] == t[name])
  {
    if items != [] {
      UploadedRow(t, device, items[..|items| - 1], now, name);
      var front := items[..|items| - 1];
      assert (exists i :: 0 <= i < |items| && items[i].id == name.id)
        <==> (exists i :: 0 <= i < |front| && front[i].id == name.id) || items[|items| - 1].id == name.id by {
        assert forall i :: 0 <= i < |front| ==> front[i] == items[i];
      }
    }
  }

  lemma ClaimableStep(t: Table, r: Request, device: DeviceId, id: PrekeyId)
    requires Enabled(t, r)
    ensures Claimable(Next(t, r), device, id)
       <==> Uploads(r, device, id) || (Claimable(t, device, id) && r != Claiming(device, Some(id)))
  {
    if r.Uploading? {
      UploadedRow(t, r.device, r.items, r.now, Name(device, id));
    }
  }

  lemma OneStep(rs: seq<Request>, k: nat)
    requires k < |rs| && IsRun(rs)
    ensures After(rs, k + 1) == Next(After(rs, k), rs[k]) && Enabled(After(rs, k), rs[k])
  {
  }

  /** The last thing that happened to the prekey among the first `k` requests was an upload. */
  predicate LeftByUpload(rs: seq<Request>, k: nat, device: DeviceId, id: PrekeyId)
    requires k <= |rs|
  {
    exists i :: 0 <= i < k && Uploads(rs[i], device, id) && forall j :: i < j < k ==> rs[j] != Claiming(device, Some(id))
  }

  lemma LeftByUploadStep(rs: seq<Request>, k: nat, device: DeviceId, id: PrekeyId)
    requires k < |rs|
    ensures LeftByUpload(rs, k + 1, device, id)
       <==> Uploads(rs[k], device, id) || (LeftByUpload(rs, k, device, id) && rs[k] != Claiming(device, Some(id)))
  {
  }

  /** A prekey is claimable exactly when it was uploaded and not claimed since. */
  lemma {:induction false} ClaimableIff(rs: seq<Request>, k: nat, device: DeviceId, id: PrekeyId)
    requires k <= |rs| && IsRun(rs)
    ensures Claimable(After(rs, k), device, id) <==> LeftByUpload(rs, k, device, id)
  {
    hide After, IsRun, Next, Claimable, Uploads, Enabled, LeftByUpload;
    if k == 0 {
      NothingUploaded(rs, device, id);
    } else {
      ClaimableIff(rs, k - 1, device, id);
      OneStep(rs, k - 1);
      ClaimableStep(After(rs, k - 1), rs[k - 1], device, id);
      LeftByUploadStep(rs, k - 1, device, id);
    }
  }

  lemma NothingUploaded(rs: seq<Request>, device: DeviceId, id: PrekeyId)
    ensures !Claimable(After(rs, 0), device, id) && !LeftByUpload(rs, 0, device, id)
  {
  }

  /** The same prekey is handed out a second time only if it was uploaded again in between. */
  lemma HandedOutOnce(rs: seq<Request>, i: nat, j: nat, device: DeviceId, id: PrekeyId)
    requires i < j < |rs| && IsRun(rs)
    requires rs[i] == Claiming(device, Some(id)) && rs[j] == Claiming(device, Some(id))
    ensures exists k :: i < k < j && Uploads(rs[k], device, id)
  {
    hide After, IsRun, Claimable;
    OneStep(rs, j);
    ClaimableIff(rs, j, device, id);
    var k :| 0 <= k < j && Uploads(rs[k], device, id) && forall m :: k < m < j ==> rs[m] != Claiming(device, Some(id));
  }

  /** It does happen, for every device and valid prekey: the client uploads a prekey it has not marked as
      consumed a second time after it was claimed, and the next claim hands it out again. */
  lemma HandedOutTwice(device: DeviceId, item: Item, first: Time, second: Time)
    requires ValidItem(item)
    ensures var upload, again := Uploading(device, [item], first), Uploading(device, [item], second);
            var claim := Claiming(device, Some(item.id));
            IsRun([upload, claim, again, claim])
  {
    var claim := Claiming(device, Some(item.id));
    var rs := [Uploading(device, [item], first), claim, Uploading(device, [item], second), claim];
    var row := Row(item.key, false, first);
    assert [item][..0] == [];
    assert Uploaded(map[], device, [item], first) == map[Name(device, item.id) := row];
    assert After(rs, 1) == map[Name(device, item.id) := row];
    assert After(rs, 2) == map[Name(device, item.id) := row.(consumed := true)];
    assert After(rs, 3) == Uploaded(After(rs, 2), device, [item], second);
    assert After(rs, 3) == map[Name(device, item.id) := row];
  }

  // ---- what is handed out ----

  /** The key of the last item with this id. */
  function LastKey(items: seq<Item>, id: PrekeyId): Option<PublicKey> {
    if items == [] then None
    else if items[|items| - 1].id == id then Some(items[|items| - 1].key)
    else LastKey(items[..|items| - 1], id)
  }

  /** The key uploaded last under the id, and the time of the first upload. */
  function KeyUploaded(rs: seq<Request>, k: nat, device: DeviceId, id: PrekeyId): Option<PublicKey>
    requires k <= |rs|
  {
    if k == 0 then None
    else
      var r := rs[k - 1];
      if r.Uploading? && r.device == device && LastKey(r.items, id).Some? then LastKey(r.items, id)
      else KeyUploaded(rs, k - 1, device, id)
  }

  function FirstUpload(rs: seq<Request>, k: nat, device: DeviceId, id: PrekeyId): Option<Time>
    requires k <= |rs|
  {
    if k == 0 then None
    else
      var r := rs[k - 1];
      if FirstUpload(rs, k - 1, device, id).Some? then FirstUpload(rs, k - 1, device, id)
      else if r.Uploading? && r.device == device && LastKey(r.items, id).Some? then Some(r.now) else None
  }

  /** The key and the time a row keeps; the claim mark is another matter. */
  predicate RowIs(t: Table, name: Name, key: Option<PublicKey>, createdAt: Option<Time>) {
    && (name in t <==> key.Some?) && (key.Some? <==> createdAt.Some?)
    && (name in t ==> t[name].key == key.value && t[name].createdAt == createdAt.value)
  }

  lemma {:induction false} UploadKeepsRow(t: Table, device: DeviceId, items: seq<Item>, now: Time, name: Name,
                                          key: Option<PublicKey>, createdAt: Option<Time>)
    requires RowIs(t, name, key, createdAt)
    ensures var last := if device == name.device then LastKey(items, name.id) else None;
            RowIs(Uploaded(t, device, items, now), name, if last.Some? then last else key,
                  if createdAt.None? && last.Some? then Some(now) else createdAt)
  {
    if items != [] {
      UploadKeepsRow(t, device, items[..|items| - 1], now, name, key, createdAt);
    }
  }

  /** Over every run a row holds the key uploaded last under its id, whatever was claimed in between, and
      the time of the first upload. */
  lemma {:induction false} RowHistory(rs: seq<Request>, k: nat, device: DeviceId, id: PrekeyId)
    requires k <= |rs| && IsRun(rs)
    ensures RowIs(After(rs, k), Name(device, id), KeyUploaded(rs, k, device, id), FirstUpload(rs, k, device, id))
  {
    hide IsRun, Enabled;
    if k > 0 {
      RowHistory(rs, k - 1, device, id);
      var r := rs[k - 1];
      if r.Uploading? {
        UploadKeepsRow(After(rs, k - 1), r.device, r.items, r.now, Name(device, id),
                       KeyUploaded(rs, k - 1, device, id), FirstUpload(rs, k - 1, device, id));
      }
    }
  }

  /** A claim hands out a prekey that no other claimable prekey of the device was first uploaded before. */
  lemma FirstUploadedFirst(rs: seq<Request>, k: nat, device: DeviceId, id: PrekeyId, other: PrekeyId)
    requires k < |rs| && IsRun(rs) && rs[k] == Claiming(device, Some(id)) && Claimable(After(rs, k), device, other)
    ensures FirstUpload(rs, k, device, id).Some? && FirstUpload(rs, k, device, other).Some?
    ensures FirstUpload(rs, k, device, id).value <= FirstUpload(rs, k, device, other).value
    ensures Claimable(After(rs, k), device, id) && !Claimable(After(rs, k + 1), device, id)
  {
    hide After, IsRun, Next, Claimable;
    OneStep(rs, k);
    ClaimableStep(After(rs, k), rs[k], device, id);
    OldestClaimed(After(rs, k), device, id, other);
    RowHistory(rs, k, device, id);
    RowHistory(rs, k, device, other);
  }

  lemma OldestClaimed(t: Table, device: DeviceId, id: PrekeyId, other: PrekeyId)
    requires Oldest(t, device, Some(id)) && Claimable(t, device, other)
    ensures Claimable(t, device, id) && Name(device, id) in t && Name(device, other) in t
    ensures t[Name(device, id)].createdAt <= t[Name(device, other)].createdAt
  {
  }

  /** Nothing is claimed only if nothing can be. */
  lemma NothingLeft(rs: seq<Request>, k: nat, device: DeviceId, id: PrekeyId)
    requires k < |rs| && IsRun(rs) && rs[k] == Claiming(device, None)
    ensures !LeftByUpload(rs, k, device, id)
  {
    hide After, IsRun, LeftByUpload;
    OneStep(rs, k);
    ClaimableIff(rs, k, device, id);
  }

  predicate AllValid(t: Table) {
    forall name :: name in t ==> name.id > 0 && t[name].key != ""
  }

  lemma {:induction false} UploadedAreValid(t: Table, device: DeviceId, items: seq<Item>, now: Time)
    requires AllValid(t) && forall i :: 0 <= i < |items| ==> items[i].id > 0 && items[i].key != ""
    ensures AllValid(Uploaded(t, device, items, now))
  {
    if items != [] {
      UploadedAreValid(t, device, items[..|items| - 1], now);
    }
  }

  lemma ValidStep(t: Table, r: Request)
    requires AllValid(t) && Enabled(t, r)
    ensures AllValid(Next(t, r))
  {
    if r.Uploading? {
      UploadedAreValid(t, r.device, r.items, r.now);
    }
  }

  /** Every prekey in the table has a positive id and a key. */
  lemma {:induction false} StoredAreValid(rs: seq<Request>, k: nat)
    requires k <= |rs| && IsRun(rs)
    ensures AllValid(After(rs, k))
  {
    hide IsRun, Enabled, Next, AllValid;
    if k == 0 {
      NothingInvalid(rs);
    } else {
      StoredAreValid(rs, k - 1);
      OneStep(rs, k - 1);
      ValidStep(After(rs, k - 1), rs[k - 1]);
    }
  }

  lemma NothingInvalid(rs: seq<Request>)
    ensures AllValid(After(rs, 0))
  {
  }
}
