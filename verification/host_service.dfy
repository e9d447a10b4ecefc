/**
  HostServiceImpl over an in-memory Hosts table. As for devices, every read
  and every update except enable/disable matches only an enabled row with
  that id, and no update tests the association state.
 */
module HostService {
  import opened Wrappers
  import opened Tables
  import opened Schema

  /** The WHERE clause `id eq id and enabled eq true`. */
  predicate Visible(t: HostTable, id: Uuid) {
    id in t && t[id].enabled
  }

  /** `host(id)`: the enabled row with that id, as a record. */
  function Get(t: HostTable, id: Uuid): (r: Option<Host>)
    ensures r.Some? <==> Visible(t, id)
    ensures r.Some? ==> r.value == HostRecord(id, t[id])
  {
    if Visible(t, id) then Some(HostRecord(id, t[id])) else None
  }

  /** `assocState(id)`: the state of the enabled row with that id. */
  function AssocState(t: HostTable, id: Uuid): (r: Option<AssociationState>)
    ensures r.Some? <==> Visible(t, id)
    ensures r.Some? ==> r.value == t[id].assocState
  {
    match Get(t, id)
    case None => None
    case Some(h) => Some(h.assocState)
  }

  /** The records of the rows `ids`, in the same order. */
  function Records(t: HostTable, ids: seq<Uuid>): (r: seq<Host>)
    requires forall i :: 0 <= i < |ids| ==> ids[i] in t
    ensures |r| == |ids|
    ensures forall h :: h in r <==> h.id in ids && h == HostRecord(h.id, t[h.id])
    decreases |ids|
  {
    if ids == [] then []
    else [HostRecord(ids[0], t[ids[0]])] + Records(t, ids[1..])
  }

  /** `allOwner(ownerId)`: exactly the enabled hosts owned by `owner`. */
  function AllOwner(t: HostTable, owner: Uuid): (r: seq<Host>)
    ensures forall h :: h in r <==>
      Visible(t, h.id) && t[h.id].ownerId == Some(owner) && h == HostRecord(h.id, t[h.id])
  {
    Records(t, Select(t, (row: HostRow) => row.enabled && row.ownerId == Some(owner)))
  }

  /**
    `allHouse(houseId)` as written: it compares the OWNER column with the
    house id, so it returns the enabled hosts whose owner id equals the
    argument, and a host placed in the house is not found by it.
   */
  function AllHouse(t: HostTable, house: Uuid): (r: seq<Host>)
    ensures forall h :: h in r <==>
      Visible(t, h.id) && t[h.id].ownerId == Some(house) && h == HostRecord(h.id, t[h.id])
    ensures |r| == 0 <==> forall k :: Visible(t, k) ==> t[k].ownerId != Some(house)
  {
    var r := Records(t, Select(t, (row: HostRow) => row.enabled && row.ownerId == Some(house)));
    assert forall k :: Visible(t, k) && t[k].ownerId == Some(house) ==> HostRecord(k, t[k]) in r;
    r
  }

  /** `beginAssoc(id, owner)`: an enabled row becomes PENDING with that owner, whatever its state was. */
  function BeginAssoc(t: HostTable, id: Uuid, owner: Uuid): (r: Written<HostTable>)
    ensures r.matched <==> Visible(t, id)
    ensures !r.matched ==> r.rows == t
    ensures SameElsewhere(t, r.rows, id)
    ensures r.matched ==> r.rows[id] == t[id].(assocState := Pending, ownerId := Some(owner))
    ensures HostsOk(t) ==> HostsOk(r.rows)
  {
    if Visible(t, id) then Written(true, t[id := t[id].(assocState := Pending, ownerId := Some(owner))])
    else Written(false, t)
  }

  /**
    `confirmAssoc(id)`: an enabled row becomes ASSOCIATED, whatever its state
    was. Only the state changes, so the owner stays as it was, possibly null.
   */
  function ConfirmAssoc(t: HostTable, id: Uuid): (r: Written<HostTable>)
    ensures r.matched <==> Visible(t, id)
    ensures !r.matched ==> r.rows == t
    ensures SameElsewhere(t, r.rows, id)
    ensures r.matched ==> r.rows[id] == t[id].(assocState := Associated)
    ensures HostsOk(t) ==> HostsOk(r.rows)
  {
    if Visible(t, id) then Written(true, t[id := t[id].(assocState := Associated)])
    else Written(false, t)
  }

  /** `houseAssoc(id, house)`: sets only the house of an enabled row, in any state. */
  function HouseAssoc(t: HostTable, id: Uuid, house: Uuid): (r: Written<HostTable>)
    ensures r.matched <==> Visible(t, id)
    ensures !r.matched ==> r.rows == t
    ensures SameElsewhere(t, r.rows, id)
    ensures r.matched ==> r.rows[id] == t[id].(houseId := Some(house))
    ensures HostsOk(t) ==> HostsOk(r.rows)
  {
    if Visible(t, id) then Written(true, t[id := t[id].(houseId := Some(house))])
    else Written(false, t)
  }

  /** A host row with its association undone. */
  function Cleared(row: HostRow): (r: HostRow)
    ensures r.assocState == Unassociated && r.ownerId.None? && r.houseId.None?
    ensures r.apiKey == row.apiKey && r.enabled == row.enabled
  {
    row.(assocState := Unassociated, ownerId := None, houseId := None)
  }

  /** `resetAssoc(id)`: an enabled row becomes UNASSOCIATED and loses owner and house in the same write. */
  function ResetAssoc(t: HostTable, id: Uuid): (r: Written<HostTable>)
    ensures r.matched <==> Visible(t, id)
    ensures !r.matched ==> r.rows == t
    ensures SameElsewhere(t, r.rows, id)
    ensures r.matched ==> r.rows[id] == Cleared(t[id])
    ensures HostsOk(t) ==> HostsOk(r.rows)
  {
    if Visible(t, id) then Written(true, t[id := Cleared(t[id])])
    else Written(false, t)
  }

  /** Resetting twice is resetting once. */
  lemma ResetAssocIdempotent(t: HostTable, id: Uuid)
    ensures ResetAssoc(ResetAssoc(t, id).rows, id) == ResetAssoc(t, id)
  {
    var once := ResetAssoc(t, id);
    if once.matched {
      assert once.rows[id := Cleared(once.rows[id])] == once.rows;
    }
  }

  /** Host `id` is enabled and holds API key `key`. */
  ghost predicate KeyHolder(t: HostTable, key: Uuid, id: Uuid) {
    Visible(t, id) && t[id].apiKey == key
  }

  /**
    `login(apiKey)`: the API key column is not unique, and `singleOrNull`
    yields a host only when exactly one enabled host holds the key; none or
    several give null.
   */
  function Login(t: HostTable, key: Uuid): (r: Option<Principal>)
    ensures r.Some? ==> r.value.HostPrincipal? && KeyHolder(t, key, r.value.id)
    ensures r.Some? ==> forall k :: KeyHolder(t, key, k) ==> k == r.value.id
    ensures forall h :: KeyHolder(t, key, h) && (forall k :: KeyHolder(t, key, k) ==> k == h) ==>
      r == Some(HostPrincipal(h))
  {
    var holders := Select(t, (row: HostRow) => row.enabled && row.apiKey == key);
    assert forall k :: KeyHolder(t, key, k) <==> k in holders;
    if |holders| == 1 then Some(HostPrincipal(holders[0]))
    else
      assert |holders| >= 2 ==> holders[0] in holders && holders[1] in holders && holders[0] < holders[1];
      None
  }

  /**
    `register(freshId)`: inserts a row with only the id set. `api_key` is
    NOT NULL without a default, so the insert succeeds only when the store
    supplies a key (`keyFill`) and the id is unused.
   */
  function Register(t: HostTable, freshId: Uuid, keyFill: Option<Uuid>): (r: Inserted<HostTable>)
    ensures r.created.Some? <==> freshId !in t && keyFill.Some?
    ensures r.created.None? ==> r.rows == t
    ensures r.created.Some? ==>
      && r.created.value == freshId
      && r.rows.Keys == t.Keys + {freshId}
      && (forall k :: k in t ==> r.rows[k] == t[k])
      && r.rows[freshId].apiKey == keyFill.value
      && r.rows[freshId].assocState == Unassociated
      && r.rows[freshId].enabled
      && r.rows[freshId].ownerId.None? && r.rows[freshId].houseId.None?
    ensures HostsOk(t) ==> HostsOk(r.rows)
  {
    match keyFill
    case Some(key) =>
      if freshId in t then Inserted(None, t)
      else Inserted(Some(freshId), t[freshId := FreshHostRow(key)])
    case None => Inserted(None, t)
  }

  /** `enable(id)`: sets the flag of any existing row; nothing else changes. */
  function Enable(t: HostTable, id: Uuid): (r: Written<HostTable>)
    ensures r.matched <==> id in t
    ensures !r.matched ==> r.rows == t
    ensures SameElsewhere(t, r.rows, id)
    ensures r.matched ==> r.rows[id] == t[id].(enabled := true)
    ensures HostsOk(t) ==> HostsOk(r.rows)
  {
    if id in t then Written(true, t[id := t[id].(enabled := true)]) else Written(false, t)
  }

  /** `disable(id)`: clears the flag of any existing row; nothing else changes. */
  function Disable(t: HostTable, id: Uuid): (r: Written<HostTable>)
    ensures r.matched <==> id in t
    ensures !r.matched ==> r.rows == t
    ensures SameElsewhere(t, r.rows, id)
    ensures r.matched ==> r.rows[id] == t[id].(enabled := false)
    ensures HostsOk(t) ==> HostsOk(r.rows)
  {
    if id in t then Written(true, t[id := t[id].(enabled := false)]) else Written(false, t)
  }

  /** Disabling an enabled host and enabling it again restores the table. */
  lemma DisableEnableRoundTrip(t: HostTable, id: Uuid)
    requires Visible(t, id)
    ensures Enable(Disable(t, id).rows, id) == Written(true, t)
  {
    assert Enable(Disable(t, id).rows, id).rows == t;
  }

  /** A disabled host is invisible to reads, updates and login. */
  lemma DisabledIsInvisible(t: HostTable, id: Uuid, other: Uuid)
    requires id in t && !t[id].enabled
    ensures Get(t, id).None? && AssocState(t, id).None?
    ensures BeginAssoc(t, id, other) == Written(false, t)
    ensures ConfirmAssoc(t, id) == Written(false, t)
    ensures HouseAssoc(t, id, other) == Written(false, t)
    ensures ResetAssoc(t, id) == Written(false, t)
    ensures Login(t, t[id].apiKey) != Some(HostPrincipal(id))
    ensures forall h :: h in AllOwner(t, other) + AllHouse(t, other) ==> h.id != id
  {
  }

  /** A call of one of the service's updates, with its arguments. */
  datatype Op =
    | Begin(id: Uuid, owner: Uuid)
    | Confirm(id: Uuid)
    | Place(id: Uuid, house: Uuid)
    | Reset(id: Uuid)
    | Insert(freshId: Uuid, keyFill: Option<Uuid>)
    | On(id: Uuid)
    | Off(id: Uuid)

  function Apply(t: HostTable, op: Op): HostTable {
    match op
    case Begin(id, owner) => BeginAssoc(t, id, owner).rows
    case Confirm(id) => ConfirmAssoc(t, id).rows
    case Place(id, house) => HouseAssoc(t, id, house).rows
    case Reset(id) => ResetAssoc(t, id).rows
    case Insert(freshId, keyFill) => Register(t, freshId, keyFill).rows
    case On(id) => Enable(t, id).rows
    case Off(id) => Disable(t, id).rows
  }

  function ApplyAll(t: HostTable, ops: seq<Op>): HostTable
    decreases |ops|
  {
    if ops == [] then t else ApplyAll(Apply(t, ops[0]), ops[1..])
  }

  /** Any sequence of host service updates keeps HostsOk: an UNASSOCIATED host has no owner. */
  lemma {:induction false} ApplyAllKeepsOk(t: HostTable, ops: seq<Op>)
    requires HostsOk(t)
    ensures HostsOk(ApplyAll(t, ops))
    decreases |ops|
  {
    if ops != [] {
      ApplyAllKeepsOk(Apply(t, ops[0]), ops[1..]);
    }
  }
}
