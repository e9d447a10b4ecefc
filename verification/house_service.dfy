/**
  HouseServiceImpl over an in-memory Houses table. Houses have no enabled
  flag: every operation matches by id alone, and delete removes the row.
 */
module HouseService {
  import opened Wrappers
  import opened Tables
  import opened Schema

  /** `house(id)`. */
  function Get(t: HouseTable, id: Uuid): (r: Option<House>)
    ensures r.Some? <==> id in t
    ensures r.Some? ==> r.value == House(id, t[id].name, t[id].ownerId)
  {
    if id in t then Some(House(id, t[id].name, t[id].ownerId)) else None
  }

  /**
    `new(newHouse, ownerId)`: inserts a house with the given name, owned by
    the caller, under a freshly drawn id; the insert fails if the id is taken.
   */
  function New(t: HouseTable, name: string, owner: Uuid, freshId: Uuid): (r: Inserted<HouseTable>)
    ensures r.created.Some? <==> freshId !in t
    ensures r.created.None? ==> r.rows == t
    ensures r.created.Some? ==>
      && r.created.value == freshId
      && r.rows.Keys == t.Keys + {freshId}
      && (forall k :: k in t ==> r.rows[k] == t[k])
      && Get(r.rows, freshId) == Some(House(freshId, name, owner))
  {
    if freshId in t then Inserted(None, t)
    else Inserted(Some(freshId), t[freshId := HouseRow(name, owner)])
  }

  /**
    `update(house)`: sets only the name of the row with `house.id`; the
    owner given in `house` is ignored. False iff no row has that id.
   */
  function Update(t: HouseTable, house: House): (r: Written<HouseTable>)
    ensures r.matched <==> house.id in t
    ensures !r.matched ==> r.rows == t
    ensures SameElsewhere(t, r.rows, house.id)
    ensures r.matched ==> r.rows[house.id].name == house.name
    ensures r.matched ==> r.rows[house.id].ownerId == t[house.id].ownerId
  {
    if house.id in t then Written(true, t[house.id := t[house.id].(name := house.name)])
    else Written(false, t)
  }

  /** `all(ownerId)`: exactly the houses owned by `owner`. */
  function All(t: HouseTable, owner: Uuid): (r: seq<House>)
    ensures forall h :: h in r <==> h.id in t && t[h.id].ownerId == owner && h == House(h.id, t[h.id].name, owner)
  {
    Records(t, Select(t, (row: HouseRow) => row.ownerId == owner))
  }

  function Records(t: HouseTable, ids: seq<Uuid>): (r: seq<House>)
    requires forall i :: 0 <= i < |ids| ==> ids[i] in t
    ensures forall h :: h in r <==> h.id in ids && h == House(h.id, t[h.id].name, t[h.id].ownerId)
    decreases |ids|
  {
    if ids == [] then []
    else [House(ids[0], t[ids[0]].name, t[ids[0]].ownerId)] + Records(t, ids[1..])
  }

  /** `delete(houseId)`: removes only that row; true iff it existed. */
  function Delete(t: HouseTable, id: Uuid): (r: Written<HouseTable>)
    ensures r.matched <==> id in t
    ensures r.rows.Keys == t.Keys - {id}
    ensures forall k :: k in r.rows ==> r.rows[k] == t[k]
  {
    Written(id in t, t - {id})
  }

  /** A house just created can be deleted, and deleting it gives back the table it was added to. */
  lemma NewThenDelete(t: HouseTable, name: string, owner: Uuid, freshId: Uuid)
    requires freshId !in t
    ensures Delete(New(t, name, owner, freshId).rows, freshId) == Written(true, t)
  {
    assert Delete(New(t, name, owner, freshId).rows, freshId).rows == t;
  }

  /** Reading a house back after update gives the new name and the stored owner, whatever owner the body named. */
  lemma UpdateThenGet(t: HouseTable, house: House)
    requires house.id in t
    ensures Get(Update(t, house).rows, house.id) == Some(House(house.id, house.name, t[house.id].ownerId))
  {
  }

  /** `all(owner)` lists exactly the houses `house(id)` finds with that owner. */
  lemma AllAgreesWithGet(t: HouseTable, owner: Uuid, h: House)
    ensures h in All(t, owner) <==> Get(t, h.id) == Some(h) && h.ownerId == owner
  {
  }
}
