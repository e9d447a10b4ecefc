/**
  DeviceServiceImpl over an in-memory Devices table. Every read and every
  update except enable/disable matches a row only by `id` AND `enabled`:
  a disabled row reads as absent and an update of it matches nothing.
  No update tests the association state; the request handlers read the
  state first and write afterwards.
 */
module DeviceService {
  import opened Wrappers
  import opened Tables
  import opened Schema

  /** The WHERE clause `id eq id and enabled eq true`. */
  predicate Visible(t: DeviceTable, id: Uuid) {
    id in t && t[id].enabled
  }

  /** `device(id)`: the enabled row with that id, as a record. */
  function Get(t: DeviceTable, id: Uuid): (r: Option<Device>)
    ensures r.Some? <==> Visible(t, id)
    ensures r.Some? ==> r.value == DeviceRecord(id, t[id])
  {
    if Visible(t, id) then Some(DeviceRecord(id, t[id])) else None
  }

  /** `assocState(id)`: the state of the enabled row with that id. */
  function AssocState(t: DeviceTable, id: Uuid): (r: Option<AssociationState>)
    ensures r.Some? <==> Visible(t, id)
    ensures r.Some? ==> r.value == t[id].assocState
  {
    match Get(t, id)
    case None => None
    case Some(d) => Some(d.assocState)
  }

  /** `updateFrequency(id)`: the update frequency of the enabled row with that id. */
  function UpdateFrequency(t: DeviceTable, id: Uuid): (r: Option<U32>)
    ensures r.Some? <==> Visible(t, id)
    ensures r.Some? ==> r.value == t[id].updateFrequency
  {
    match Get(t, id)
    case None => None
    case Some(d) => Some(d.updateFrequency)
  }

  /** The records of the rows `ids`, in the same order. */
  function Records(t: DeviceTable, ids: seq<Uuid>): (r: seq<Device>)
    requires forall i :: 0 <= i < |ids| ==> ids[i] in t
    ensures |r| == |ids|
    ensures forall d :: d in r <==> d.id in ids && d == DeviceRecord(d.id, t[d.id])
    decreases |ids|
  {
    if ids == [] then []
    else [DeviceRecord(ids[0], t[ids[0]])] + Records(t, ids[1..])
  }

  /** `allOwner(ownerId)`: exactly the enabled devices owned by `owner`. */
  function AllOwner(t: DeviceTable, owner: Uuid): (r: seq<Device>)
    ensures forall d :: d in r <==>
      Visible(t, d.id) && t[d.id].ownerId == Some(owner) && d == DeviceRecord(d.id, t[d.id])
  {
    Records(t, Select(t, (row: DeviceRow) => row.enabled && row.ownerId == Some(owner)))
  }

  /** `allHouse(houseId)`: exactly the enabled devices placed in `house`. */
  function AllHouse(t: DeviceTable, house: Uuid): (r: seq<Device>)
    ensures forall d :: d in r <==>
      Visible(t, d.id) && t[d.id].houseId == Some(house) && d == DeviceRecord(d.id, t[d.id])
    ensures |r| == 0 <==> forall k :: Visible(t, k) ==> t[k].houseId != Some(house)
  {
    var r := Records(t, Select(t, (row: DeviceRow) => row.enabled && row.houseId == Some(house)));
    assert forall k :: Visible(t, k) && t[k].houseId == Some(house) ==> DeviceRecord(k, t[k]) in r;
    r
  }

  /** `allHost(hostId)`: exactly the enabled devices bound to `host`, each once. */
  function AllHost(t: DeviceTable, host: Uuid): (r: seq<Device>)
    ensures forall d :: d in r <==>
      Visible(t, d.id) && t[d.id].hostId == Some(host) && d == DeviceRecord(d.id, t[d.id])
    ensures forall i, j :: 0 <= i < j < |r| ==> r[i].id < r[j].id
  {
    var ids := Select(t, (row: DeviceRow) => row.enabled && row.hostId == Some(host));
    var r := Records(t, ids);
    RecordIds(t, ids, r);
    r
  }

  lemma {:induction false} RecordIds(t: DeviceTable, ids: seq<Uuid>, r: seq<Device>)
    requires forall i :: 0 <= i < |ids| ==> ids[i] in t
    requires r == Records(t, ids)
    ensures forall i :: 0 <= i < |r| ==> r[i].id == ids[i]
    decreases |ids|
  {
    if ids != [] {
      RecordIds(t, ids[1..], Records(t, ids[1..]));
    }
  }

  /** `changeUpdateFrequency(id, f)`: sets only the update frequency of an enabled row. */
  function ChangeUpdateFrequency(t: DeviceTable, id: Uuid, f: U32): (r: Written<DeviceTable>)
    ensures r.matched <==> Visible(t, id)
    ensures !r.matched ==> r.rows == t
    ensures SameElsewhere(t, r.rows, id)
    ensures r.matched ==> r.rows[id] == t[id].(updateFrequency := f)
    ensures DevicesOk(t) ==> DevicesOk(r.rows)
  {
    if Visible(t, id) then Written(true, t[id := t[id].(updateFrequency := f)])
    else Written(false, t)
  }

  /**
    `beginAssoc(id, owner)`: an enabled row becomes PENDING with that owner,
    whatever its state was; nothing else changes.
   */
  function BeginAssoc(t: DeviceTable, id: Uuid, owner: Uuid): (r: Written<DeviceTable>)
    ensures r.matched <==> Visible(t, id)
    ensures !r.matched ==> r.rows == t
    ensures SameElsewhere(t, r.rows, id)
    ensures r.matched ==> r.rows[id] == t[id].(assocState := Pending, ownerId := Some(owner))
    ensures DevicesOk(t) ==> DevicesOk(r.rows)
  {
    if Visible(t, id) then Written(true, t[id := t[id].(assocState := Pending, ownerId := Some(owner))])
    else Written(false, t)
  }

  /**
    `confirmAssoc(id, host)`: an enabled row becomes ASSOCIATED and bound to
    `host`, whatever its state was; nothing else changes.
   */
  function ConfirmAssoc(t: DeviceTable, id: Uuid, host: Uuid): (r: Written<DeviceTable>)
    ensures r.matched <==> Visible(t, id)
    ensures !r.matched ==> r.rows == t
    ensures SameElsewhere(t, r.rows, id)
    ensures r.matched ==> r.rows[id] == t[id].(assocState := Associated, hostId := Some(host))
    ensures DevicesOk(t) ==> DevicesOk(r.rows)
  {
    if Visible(t, id) then Written(true, t[id := t[id].(assocState := Associated, hostId := Some(host))])
    else Written(false, t)
  }

  /** `houseAssoc(id, house)`: sets only the house of an enabled row, in any association state. */
  function HouseAssoc(t: DeviceTable, id: Uuid, house: Uuid): (r: Written<DeviceTable>)
    ensures r.matched <==> Visible(t, id)
    ensures !r.matched ==> r.rows == t
    ensures SameElsewhere(t, r.rows, id)
    ensures r.matched ==> r.rows[id] == t[id].(houseId := Some(house))
    ensures DevicesOk(t) ==> DevicesOk(r.rows)
  {
    if Visible(t, id) then Written(true, t[id := t[id].(houseId := Some(house))])
    else Written(false, t)
  }

  /** A row with its association undone. */
  function Cleared(row: DeviceRow): (r: DeviceRow)
    ensures r.assocState == Unassociated
    ensures r.ownerId.None? && r.houseId.None? && r.hostId.None?
    ensures r.kind == row.kind && r.updateFrequency == row.updateFrequency && r.enabled == row.enabled
  {
    row.(assocState := Unassociated, ownerId := None, houseId := None, hostId := None)
  }

  /**
    `resetAssoc(id)`: an enabled row becomes UNASSOCIATED and loses owner,
    house and host in the same write; nothing else changes.
   */
  function ResetAssoc(t: DeviceTable, id: Uuid): (r: Written<DeviceTable>)
    ensures r.matched <==> Visible(t, id)
    ensures !r.matched ==> r.rows == t
    ensures SameElsewhere(t, r.rows, id)
    ensures r.matched ==> r.rows[id] == Cleared(t[id])
    ensures DevicesOk(t) ==> DevicesOk(r.rows)
  {
    if Visible(t, id) then Written(true, t[id := Cleared(t[id])])
    else Written(false, t)
  }

  /** Resetting twice is resetting once, and the second reset reports the same match. */
  lemma ResetAssocIdempotent(t: DeviceTable, id: Uuid)
    ensures ResetAssoc(ResetAssoc(t, id).rows, id) == ResetAssoc(t, id)
  {
    var once := ResetAssoc(t, id);
    if once.matched {
      assert once.rows[id := Cleared(once.rows[id])] == once.rows;
    }
  }

  /** Outcome of resetting several rows one after another. */
  datatype Batch = Batch(results: seq<bool>, rows: DeviceTable)

  /**
    `ids.map { resetAssoc(it) }`: resets the rows one after another. Each
    result says whether that row was enabled; every enabled listed row ends
    reset and every other row is untouched, whatever the order or repeats.
   */
  function ResetEach(t: DeviceTable, ids: seq<Uuid>): (r: Batch)
    ensures |r.results| == |ids|
    ensures forall i :: 0 <= i < |ids| ==> r.results[i] == Visible(t, ids[i])
    ensures r.rows.Keys == t.Keys
    ensures forall k :: k in t && k in ids && t[k].enabled ==> r.rows[k] == Cleared(t[k])
    ensures forall k :: k in t && !(k in ids && t[k].enabled) ==> r.rows[k] == t[k]
    ensures DevicesOk(t) ==> DevicesOk(r.rows)
    decreases |ids|
  {
    if ids == [] then Batch([], t)
    else
      var first := ResetAssoc(t, ids[0]);
      var rest := ResetEach(first.rows, ids[1..]);
      assert forall k :: k in ids <==> k == ids[0] || k in ids[1..];
      Batch([first.matched] + rest.results, rest.rows)
  }

  /**
    `register(freshId)`: inserts a row with only the id set. The `type`
    column is NOT NULL without a default, so the insert succeeds only when
    the store supplies a value for it (`kindFill`) and the id is unused.
   */
  function Register(t: DeviceTable, freshId: Uuid, kindFill: Option<DeviceType>): (r: Inserted<DeviceTable>)
    ensures r.created.Some? <==> freshId !in t && kindFill.Some?
    ensures r.created.None? ==> r.rows == t
    ensures r.created.Some? ==>
      && r.created.value == freshId
      && r.rows.Keys == t.Keys + {freshId}
      && (forall k :: k in t ==> r.rows[k] == t[k])
      && r.rows[freshId].kind == kindFill.value
      && r.rows[freshId].assocState == Unassociated
      && r.rows[freshId].enabled
      && r.rows[freshId].updateFrequency == 0
      && r.rows[freshId].ownerId.None? && r.rows[freshId].houseId.None? && r.rows[freshId].hostId.None?
    ensures DevicesOk(t) ==> DevicesOk(r.rows)
  {
    match kindFill
    case Some(kind) =>
      if freshId in t then Inserted(None, t)
      else Inserted(Some(freshId), t[freshId := FreshDeviceRow(kind)])
    case None => Inserted(None, t)
  }

  /** `enable(id)`: sets the flag of any existing row, enabled or not; nothing else changes. */
  function Enable(t: DeviceTable, id: Uuid): (r: Written<DeviceTable>)
    ensures r.matched <==> id in t
    ensures !r.matched ==> r.rows == t
    ensures SameElsewhere(t, r.rows, id)
    ensures r.matched ==> r.rows[id] == t[id].(enabled := true)
    ensures DevicesOk(t) ==> DevicesOk(r.rows)
  {
    if id in t then Written(true, t[id := t[id].(enabled := true)]) else Written(false, t)
  }

  /** `disable(id)`: clears the flag of any existing row, enabled or not; nothing else changes. */
  function Disable(t: DeviceTable, id: Uuid): (r: Written<DeviceTable>)
    ensures r.matched <==> id in t
    ensures !r.matched ==> r.rows == t
    ensures SameElsewhere(t, r.rows, id)
    ensures r.matched ==> r.rows[id] == t[id].(enabled := false)
    ensures DevicesOk(t) ==> DevicesOk(r.rows)
  {
    if id in t then Written(true, t[id := t[id].(enabled := false)]) else Written(false, t)
  }

  /** Disabling an enabled device and enabling it again restores the table. */
  lemma DisableEnableRoundTrip(t: DeviceTable, id: Uuid)
    requires Visible(t, id)
    ensures Enable(Disable(t, id).rows, id) == Written(true, t)
  {
    assert Enable(Disable(t, id).rows, id).rows == t;
  }

  /** A disabled device is invisible: every read is null and every update matches nothing and changes nothing. */
  lemma DisabledIsInvisible(t: DeviceTable, id: Uuid, other: Uuid, f: U32)
    requires id in t && !t[id].enabled
    ensures Get(t, id).None? && AssocState(t, id).None? && UpdateFrequency(t, id).None?
    ensures BeginAssoc(t, id, other) == Written(false, t)
    ensures ConfirmAssoc(t, id, other) == Written(false, t)
    ensures HouseAssoc(t, id, other) == Written(false, t)
    ensures ResetAssoc(t, id) == Written(false, t)
    ensures ChangeUpdateFrequency(t, id, f) == Written(false, t)
    ensures forall d :: d in AllOwner(t, other) + AllHouse(t, other) + AllHost(t, other) ==> d.id != id
  {
  }

  /** A call of one of the service's updates, with its arguments. */
  datatype Op =
    | Begin(id: Uuid, owner: Uuid)
    | Confirm(id: Uuid, host: Uuid)
    | Place(id: Uuid, house: Uuid)
    | Reset(id: Uuid)
    | Frequency(id: Uuid, f: U32)
    | Insert(freshId: Uuid, kindFill: Option<DeviceType>)
    | On(id: Uuid)
    | Off(id: Uuid)

  function Apply(t: DeviceTable, op: Op): DeviceTable {
    match op
    case Begin(id, owner) => BeginAssoc(t, id, owner).rows
    case Confirm(id, host) => ConfirmAssoc(t, id, host).rows
    case Place(id, house) => HouseAssoc(t, id, house).rows
    case Reset(id) => ResetAssoc(t, id).rows
    case Frequency(id, f) => ChangeUpdateFrequency(t, id, f).rows
    case Insert(freshId, kindFill) => Register(t, freshId, kindFill).rows
    case On(id) => Enable(t, id).rows
    case Off(id) => Disable(t, id).rows
  }

  function ApplyAll(t: DeviceTable, ops: seq<Op>): DeviceTable
    decreases |ops|
  {
    if ops == [] then t else ApplyAll(Apply(t, ops[0]), ops[1..])
  }

  /**
    Any sequence of service updates, in any order and in any state (the
    service itself never checks the state), keeps DevicesOk: UNASSOCIATED
    means no owner and no host, ASSOCIATED means a host.
   */
  lemma {:induction false} ApplyAllKeepsOk(t: DeviceTable, ops: seq<Op>)
    requires DevicesOk(t)
    ensures DevicesOk(ApplyAll(t, ops))
    decreases |ops|
  {
    if ops != [] {
      ApplyAllKeepsOk(Apply(t, ops[0]), ops[1..]);
    }
  }
}
