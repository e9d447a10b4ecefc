/**
  Five places where the handlers, as written, do not do what the protocol
  evidently intends. For each, a lemma exhibits the discrepancy on the
  as-written model, and a corrected definition is given with the intended
  property proved about it. The handlers in Routing keep the behaviour as
  written; the corrected definitions sit here beside them.
 */
module Findings {
  import opened Wrappers
  import opened Tables
  import opened Schema
  import opened Security
  import opened Routing
  import DeviceService
  import HostService
  import HouseService
  import Supervisor

  // ------------------------------------------- house delete and placed hosts

  /**
    As written: the host lookup of house/delete compares the owner column
    with the house id, so a host placed in the house does not stop the
    house from being deleted, and it keeps pointing at the removed house.
   */
  lemma PlacedHostDoesNotBlockDelete(s: Store, auth: Option<Principal>, house: Uuid, h: Uuid)
    requires IsUser(auth)
    requires HostService.Visible(s.hosts, h) && s.hosts[h].houseId == Some(house)
    requires forall k :: DeviceService.Visible(s.devices, k) ==> s.devices[k].houseId != Some(house)
    requires forall k :: HostService.Visible(s.hosts, k) ==> s.hosts[k].ownerId != Some(house)
    ensures
      var r := HouseDelete(s, auth, house);
      && r.status == Ok
      && house !in r.store.houses
      && HostService.Visible(r.store.hosts, h) && r.store.hosts[h].houseId == Some(house)
  {
  }

  /** The host lookup evidently intended: the enabled hosts placed in `house`. */
  function HostsPlacedIn(t: HostTable, house: Uuid): (r: seq<Host>)
    ensures forall h :: h in r <==>
      HostService.Visible(t, h.id) && t[h.id].houseId == Some(house) && h == HostRecord(h.id, t[h.id])
    ensures |r| == 0 <==> forall k :: HostService.Visible(t, k) ==> t[k].houseId != Some(house)
  {
    var r := HostService.Records(t, Select(t, (row: HostRow) => row.enabled && row.houseId == Some(house)));
    assert forall k :: HostService.Visible(t, k) && t[k].houseId == Some(house) ==> HostRecord(k, t[k]) in r;
    r
  }

  /**
    Corrected house/delete: the house goes only when no enabled device and
    no enabled host is placed in it, so a delete never leaves an enabled
    row pointing at a removed house.
   */
  function HouseDeleteIntended(s: Store, auth: Option<Principal>, house: Uuid): (r: Reply)
    ensures !IsUser(auth) ==> r == Reply(Unauthorized, s, [])
    ensures IsUser(auth) ==>
      var empty :=
        && (forall k :: DeviceService.Visible(s.devices, k) ==> s.devices[k].houseId != Some(house))
        && (forall k :: HostService.Visible(s.hosts, k) ==> s.hosts[k].houseId != Some(house));
      && (r.status == Ok <==> empty)
      && (r.status == Ok ==> r == Reply(Ok, s.(houses := s.houses - {house}), []))
      && (r.status != Ok ==> r == Reply(Unprocessable, s, []))
    ensures r.status == Ok ==>
      && house !in r.store.houses
      && (forall k :: DeviceService.Visible(r.store.devices, k) ==> r.store.devices[k].houseId != Some(house))
      && (forall k :: HostService.Visible(r.store.hosts, k) ==> r.store.hosts[k].houseId != Some(house))
    ensures Coherent(s) ==> Coherent(r.store)
  {
    if !IsUser(auth) then Reply(Unauthorized, s, [])
    else if |DeviceService.AllHouse(s.devices, house)| == 0 && |HostsPlacedIn(s.hosts, house)| == 0 then
      Reply(Ok, s.(houses := HouseService.Delete(s.houses, house).rows), [])
    else Reply(Unprocessable, s, [])
  }

  /**
    When no host owner's id happens to equal the house id (distinct random
    UUIDs), the corrected delete only ever refuses more than the written
    one: whatever it lets through, the written one lets through too.
   */
  lemma IntendedDeleteIsStricter(s: Store, auth: Option<Principal>, house: Uuid)
    requires forall k :: HostService.Visible(s.hosts, k) ==> s.hosts[k].ownerId != Some(house)
    ensures HouseDeleteIntended(s, auth, house).status == Ok ==> HouseDelete(s, auth, house) == HouseDeleteIntended(s, auth, house)
  {
  }

  // ---------------------------------------------- house delete with limit 0

  /**
    As written: the house delete passes a limit of 0 (and an offset of 0)
    to the delete statement. A dialect that accepts a limit on DELETE
    removes no row at all; one that refuses it throws instead. `accepted`
    stands for the dialect; `None` is the thrown exception.
   */
  function DeleteLimitZero(t: HouseTable, id: Uuid, accepted: bool): (r: Option<Written<HouseTable>>)
    ensures r.Some? <==> accepted
    ensures r.Some? ==> !r.value.matched && r.value.rows.Keys == t.Keys
    ensures r.Some? ==> forall k :: k in r.value.rows ==> r.value.rows[k] == t[k]
  {
    if accepted then Some(Written(false, t)) else None
  }

  /**
    house/delete over the written statement. The guard is the route's own;
    when it lets the delete through, a dialect that accepts the limit
    answers OK and removes nothing, and one that refuses it ends the
    request with an exception StatusPages does not map, so 500. The store
    is never changed.
   */
  function HouseDeleteLimitZero(s: Store, auth: Option<Principal>, houseId: Uuid, accepted: bool): (r: Reply)
    ensures r.store == s && r.queued == []
    ensures !IsUser(auth) ==> r.status == Unauthorized
    ensures IsUser(auth) ==>
      var clear :=
        && (forall k :: DeviceService.Visible(s.devices, k) ==> s.devices[k].houseId != Some(houseId))
        && (forall k :: HostService.Visible(s.hosts, k) ==> s.hosts[k].ownerId != Some(houseId));
      && (!clear ==> r.status == Unprocessable)
      && (clear && accepted ==> r.status == Ok)
      && (clear && !accepted ==> r.status == InternalError)
  {
    if !IsUser(auth) then Reply(Unauthorized, s, [])
    else if |DeviceService.AllHouse(s.devices, houseId)| == 0 && |HostService.AllHouse(s.hosts, houseId)| == 0 then
      match DeleteLimitZero(s.houses, houseId, accepted)
      case Some(w) => Reply(Ok, s.(houses := w.rows), [])
      case None => Reply(InternalError, s, [])
    else Reply(Unprocessable, s, [])
  }

  /**
    The discrepancy: where the route, with the removal evidently intended,
    deletes an existing house, the written statement keeps it, answering OK
    or 500.
   */
  lemma DeleteLimitZeroKeepsHouse(s: Store, auth: Option<Principal>, house: Uuid, accepted: bool)
    requires IsUser(auth) && house in s.houses
    requires forall k :: DeviceService.Visible(s.devices, k) ==> s.devices[k].houseId != Some(house)
    requires forall k :: HostService.Visible(s.hosts, k) ==> s.hosts[k].ownerId != Some(house)
    ensures HouseDelete(s, auth, house).status == Ok && house !in HouseDelete(s, auth, house).store.houses
    ensures
      var r := HouseDeleteLimitZero(s, auth, house, accepted);
      && house in r.store.houses
      && (r.status == Ok <==> accepted)
  {
  }

  /**
    Apart from the removal, the written route and the modelled one agree:
    where the dialect accepts the limit, they give the same status and
    leave everything but the houses as they found it.
   */
  lemma LimitZeroDiffersOnlyInRemoval(s: Store, auth: Option<Principal>, house: Uuid)
    ensures
      var r := HouseDeleteLimitZero(s, auth, house, true);
      var m := HouseDelete(s, auth, house);
      && r.status == m.status
      && r.store.(houses := m.store.houses) == m.store
  {
  }

  // --------------------------------------- device reset by the owning user

  /**
    As written: the user branch of device/resetAssoc tests for the JWT
    library's principal class, which the JWT providers never produce, so
    even the owner of an ASSOCIATED device is answered 401.
   */
  lemma OwnerCannotResetDevice(s: Store, user: Uuid, d: Uuid)
    requires DeviceService.Visible(s.devices, d)
    requires s.devices[d].assocState == Associated && s.devices[d].ownerId == Some(user)
    ensures DeviceResetAssoc(s, Some(UserPrincipal(user)), d) == Reply(Unauthorized, s, [])
  {
  }

  /**
    Corrected device/resetAssoc: the host branch is unchanged, and a user
    principal takes the owner branch the source evidently meant: the owner
    of an ASSOCIATED device resets it, the owner of a device in another
    state gets 422, anyone else 401.
   */
  function DeviceResetAssocIntended(s: Store, auth: Option<Principal>, id: Uuid): (r: Reply)
    ensures auth.None? ==> r == Reply(Unauthorized, s, [])
    ensures IsHost(auth) ==> r == DeviceResetAssoc(s, auth, id)
    ensures IsUser(auth) ==>
      var owned := DeviceService.Visible(s.devices, id) && s.devices[id].ownerId == Some(auth.value.id);
      && (!owned ==> r == Reply(Unauthorized, s, []))
      && (owned && s.devices[id].assocState != Associated ==> r == Reply(Unprocessable, s, []))
      && (owned && s.devices[id].assocState == Associated ==>
            r == Reply(Ok, s.(devices := s.devices[id := DeviceService.Cleared(s.devices[id])]), []))
    ensures Coherent(s) ==> Coherent(r.store)
  {
    match auth
    case Some(UserPrincipal(user)) =>
      var device := DeviceService.Get(s.devices, id);
      if device.Some? && device.value.ownerId == Some(user) then
        if DeviceService.AssocState(s.devices, id) == Some(Associated) then
          var w := DeviceService.ResetAssoc(s.devices, id);
          if w.matched then Reply(Ok, s.(devices := w.rows), []) else Reply(NotFound, s, [])
        else Reply(Unprocessable, s, [])
      else Reply(Unauthorized, s, [])
    case _ => DeviceResetAssoc(s, auth, id)
  }

  /** The two definitions differ only in what the owner of an ASSOCIATED device is answered. */
  lemma ResetDiffersOnlyForOwners(s: Store, auth: Option<Principal>, id: Uuid)
    requires DeviceResetAssocIntended(s, auth, id) != DeviceResetAssoc(s, auth, id)
    ensures IsUser(auth) && DeviceService.Visible(s.devices, id) && s.devices[id].ownerId == Some(auth.value.id)
  {
  }

  // ------------------------------------------ confirm racing the re-check

  /**
    As written: a confirm reads PENDING, the claim's re-check fires before
    the confirm writes and resets the device, and the confirm's update,
    which does not re-test the state, then makes the device ASSOCIATED with
    no owner. The store was coherent before and is not afterwards.
   */
  lemma ConfirmAfterRecheckLosesOwner(s: Store, host: Uuid, d: Uuid)
    requires Coherent(s)
    requires DeviceService.Visible(s.devices, d) && s.devices[d].assocState == Pending
    ensures
      var seen := DeviceService.AssocState(s.devices, d);
      var s1 := Recheck(s, DeviceCheck(d));
      var r := DeviceConfirmCommit(s1, host, d, seen);
      && r.status == Ok
      && r.store.devices[d].assocState == Associated
      && r.store.devices[d].ownerId.None?
      && !Coherent(r.store)
  {
    var s1 := Recheck(s, DeviceCheck(d));
    var r := DeviceConfirmCommit(s1, host, d, DeviceService.AssocState(s.devices, d));
    assert !DeviceRowCoherent(r.store.devices[d]);
  }

  /** The update evidently intended: it matches only an enabled row that is still PENDING. */
  function ConfirmIfPending(t: DeviceTable, id: Uuid, host: Uuid): (r: Written<DeviceTable>)
    ensures r.matched <==> DeviceService.Visible(t, id) && t[id].assocState == Pending
    ensures !r.matched ==> r.rows == t
    ensures r.matched ==> r.rows == t[id := t[id].(assocState := Associated, hostId := Some(host))]
  {
    if DeviceService.AssocState(t, id) == Some(Pending) then DeviceService.ConfirmAssoc(t, id, host)
    else Written(false, t)
  }

  /**
    Corrected confirm commit: whatever was read earlier and whatever ran in
    between, a coherent store stays coherent. When nothing ran in between
    it answers exactly as the written one.
   */
  function DeviceConfirmCommitGuarded(s: Store, host: Uuid, id: Uuid, seen: Option<AssociationState>): (r: Reply)
    ensures r.queued == []
    ensures seen != Some(Pending) ==> r == Reply(Unprocessable, s, [])
    ensures Coherent(s) ==> Coherent(r.store)
    ensures seen == DeviceService.AssocState(s.devices, id) ==> r == DeviceConfirmCommit(s, host, id, seen)
  {
    if seen == Some(Pending) then
      var w := ConfirmIfPending(s.devices, id, host);
      if w.matched then Reply(Ok, s.(devices := w.rows), []) else Reply(NotFound, s, [])
    else Reply(Unprocessable, s, [])
  }

  /** In the race above, the corrected confirm matches nothing and writes nothing. */
  lemma GuardedConfirmAfterRecheck(s: Store, host: Uuid, d: Uuid)
    requires DeviceService.Visible(s.devices, d) && s.devices[d].assocState == Pending
    ensures
      var seen := DeviceService.AssocState(s.devices, d);
      var s1 := Recheck(s, DeviceCheck(d));
      DeviceConfirmCommitGuarded(s1, host, d, seen) == Reply(NotFound, s1, [])
  {
  }

  // ----------------------------------------- re-check racing the confirm

  /**
    As written: the re-check reads PENDING, a confirm then runs to the end
    and answers OK, and the re-check's reset, which does not re-test the
    state, clears the device the host was just told is bound to it.
   */
  lemma RecheckUndoesConfirmedDevice(s: Store, host: Uuid, d: Uuid)
    requires DeviceService.Visible(s.devices, d) && s.devices[d].assocState == Pending
    ensures
      var seen := CheckedState(s, DeviceCheck(d));
      var r := DeviceConfirmAssoc(s, Some(HostPrincipal(host)), d);
      var s2 := RecheckCommit(r.store, DeviceCheck(d), seen);
      && r.status == Ok
      && r.store.devices[d].assocState == Associated && r.store.devices[d].hostId == Some(host)
      && s2.devices[d].assocState == Unassociated && s2.devices[d].hostId.None?
  {
  }

  /** The device reset evidently intended for a re-check: it matches only an enabled row that is not ASSOCIATED. */
  function ResetIfUnconfirmed(t: DeviceTable, id: Uuid): (r: Written<DeviceTable>)
    ensures r.matched <==> DeviceService.Visible(t, id) && t[id].assocState != Associated
    ensures !r.matched ==> r.rows == t
    ensures r.matched ==> r.rows == t[id := DeviceService.Cleared(t[id])]
  {
    if DeviceService.AssocState(t, id) != Some(Associated) then DeviceService.ResetAssoc(t, id)
    else Written(false, t)
  }

  /** The same guard on the host table. */
  function HostResetIfUnconfirmed(t: HostTable, id: Uuid): (r: Written<HostTable>)
    ensures r.matched <==> HostService.Visible(t, id) && t[id].assocState != Associated
    ensures !r.matched ==> r.rows == t
    ensures r.matched ==> r.rows == t[id := HostService.Cleared(t[id])]
  {
    if HostService.AssocState(t, id) != Some(Associated) then HostService.ResetAssoc(t, id)
    else Written(false, t)
  }

  /**
    Corrected re-check reset: whatever its read found and whatever ran in
    between, a row that is ASSOCIATED when the reset runs is left alone, so
    a confirm that answered OK is never undone by a re-check. With nothing
    in between it does exactly what the written re-check does.
   */
  function RecheckCommitGuarded(s: Store, c: Check, seen: Option<AssociationState>): (s': Store)
    ensures c.DeviceCheck? && c.id in s.devices && s.devices[c.id].assocState == Associated ==> s' == s
    ensures c.HostCheck? && c.id in s.hosts && s.hosts[c.id].assocState == Associated ==> s' == s
    ensures seen == CheckedState(s, c) ==> s' == RecheckCommit(s, c, seen)
    ensures Coherent(s) ==> Coherent(s')
  {
    if seen == Some(Associated) then s
    else
      match c
      case DeviceCheck(id) => s.(devices := ResetIfUnconfirmed(s.devices, id).rows)
      case HostCheck(id) => s.(hosts := HostResetIfUnconfirmed(s.hosts, id).rows)
  }

  /** In the race above, the corrected reset leaves the confirmed device bound to its host. */
  lemma GuardedRecheckKeepsConfirm(s: Store, host: Uuid, d: Uuid)
    requires DeviceService.Visible(s.devices, d) && s.devices[d].assocState == Pending
    ensures
      var seen := CheckedState(s, DeviceCheck(d));
      var r := DeviceConfirmAssoc(s, Some(HostPrincipal(host)), d);
      var s2 := RecheckCommitGuarded(r.store, DeviceCheck(d), seen);
      && s2.devices[d].assocState == Associated && s2.devices[d].hostId == Some(host)
  {
  }

  // ------------------------------------------------ corrected dispatcher

  /**
    The request dispatcher with the corrected house delete and device reset
    in place of the written ones; every other route is unchanged. It keeps
    the coherence invariant, and a delete it lets through never leaves an
    enabled device or host placed in the removed house.
   */
  function HandleIntended(s: Store, auth: Option<Principal>, call: Supervisor.Call): (r: Reply)
    ensures !call.DeleteHouse? && !call.ResetDevice? ==> r == Supervisor.Handle(s, auth, call)
    ensures call.ResetDevice? && !IsUser(auth) ==> r == Supervisor.Handle(s, auth, call)
    ensures call.DeleteHouse? && r.status == Ok ==>
      && call.houseId !in r.store.houses
      && (forall k :: DeviceService.Visible(r.store.devices, k) ==> r.store.devices[k].houseId != Some(call.houseId))
      && (forall k :: HostService.Visible(r.store.hosts, k) ==> r.store.hosts[k].houseId != Some(call.houseId))
    ensures Coherent(s) ==> Coherent(r.store)
  {
    match call
    case DeleteHouse(house) => HouseDeleteIntended(s, auth, house)
    case ResetDevice(id) => DeviceResetAssocIntended(s, auth, id)
    case _ => Supervisor.Handle(s, auth, call)
  }
}
