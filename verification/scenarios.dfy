/**
  The association protocol end to end: claim and confirm, the timeout that
  undoes an unconfirmed claim, what happens when requests overlap, and
  the cases where the running code departs from the protocol's intent.
  Each lemma holds for every store that meets its requires.
 */
module Scenarios {
  import opened Wrappers
  import opened Schema
  import opened Security
  import opened Routing
  import DeviceService
  import HostService
  import Supervisor

  /**
    A user claims an enabled UNASSOCIATED device, a host confirms it, and
    the device is ASSOCIATED with that owner and host; a second confirm is
    answered 422 and writes nothing.
   */
  lemma ClaimThenConfirm(s: Store, user: Uuid, host: Uuid, d: Uuid)
    requires DeviceService.Visible(s.devices, d) && s.devices[d].assocState == Unassociated
    ensures
      var r1 := DeviceBeginAssoc(s, Some(UserPrincipal(user)), d);
      var r2 := DeviceConfirmAssoc(r1.store, Some(HostPrincipal(host)), d);
      var r3 := DeviceConfirmAssoc(r2.store, Some(HostPrincipal(host)), d);
      && r1.status == Ok && r1.queued == [DeviceCheck(d)]
      && r2.status == Ok
      && r2.store.devices[d].assocState == Associated
      && r2.store.devices[d].ownerId == Some(user)
      && r2.store.devices[d].hostId == Some(host)
      && r3 == Reply(Unprocessable, r2.store, [])
  {
  }

  /**
    When the re-check of a device that is still PENDING comes due, the
    device is UNASSOCIATED with owner, house and host cleared, and nothing
    else in the store changes.
   */
  lemma TimeoutUndoesUnconfirmed(w: Supervisor.World, d: Uuid)
    requires w.pending != [] && w.pending[0] == DeviceCheck(d)
    requires DeviceService.Visible(w.store.devices, d) && w.store.devices[d].assocState == Pending
    ensures
      var w' := Supervisor.Step(w, Supervisor.Timeout);
      && w'.store.devices[d].assocState == Unassociated
      && w'.store.devices[d].ownerId.None? && w'.store.devices[d].houseId.None? && w'.store.devices[d].hostId.None?
      && w'.store == w.store.(devices := w.store.devices[d := w'.store.devices[d]])
  {
  }

  /** A re-check that comes due after the device was confirmed changes nothing. */
  lemma TimeoutAfterConfirmIsNoOp(w: Supervisor.World, d: Uuid)
    requires w.pending != [] && w.pending[0] == DeviceCheck(d)
    requires d in w.store.devices && w.store.devices[d].assocState == Associated
    ensures Supervisor.Step(w, Supervisor.Timeout) == Supervisor.World(w.store, w.pending[1..])
  {
  }

  /**
    Two claims of the same UNASSOCIATED device that both read the state
    before either writes both succeed: each answers OK and launches a
    re-check, and the second caller ends up as the owner. The update does
    not re-test the state, so nothing makes exactly one of them win.
   */
  lemma OverlappingClaimsBothSucceed(s: Store, u1: Uuid, u2: Uuid, d: Uuid)
    requires DeviceService.Visible(s.devices, d) && s.devices[d].assocState == Unassociated
    ensures
      var seen1 := DeviceService.AssocState(s.devices, d);
      var seen2 := DeviceService.AssocState(s.devices, d);
      var r1 := DeviceBeginCommit(s, u1, d, seen1);
      var r2 := DeviceBeginCommit(r1.store, u2, d, seen2);
      && r1.status == Ok && r2.status == Ok
      && r1.queued + r2.queued == [DeviceCheck(d), DeviceCheck(d)]
      && r2.store.devices[d].assocState == Pending
      && r2.store.devices[d].ownerId == Some(u2)
  {
  }

  /** One claim, seen from the supervisor: the device turns PENDING for the caller and one check is queued. */
  lemma ClaimStep(w: Supervisor.World, user: Uuid, d: Uuid)
    requires DeviceService.Visible(w.store.devices, d) && w.store.devices[d].assocState == Unassociated
    ensures
      var w' := Supervisor.Step(w, Supervisor.Request(Some(UserPrincipal(user)), Supervisor.BeginDevice(d)));
      && DeviceService.Visible(w'.store.devices, d)
      && w'.store.devices[d].assocState == Pending && w'.store.devices[d].ownerId == Some(user)
      && w'.pending == w.pending + [DeviceCheck(d)]
  {
  }

  /** One confirm, seen from the supervisor: the PENDING device is bound to the calling host and nothing is queued. */
  lemma ConfirmStep(w: Supervisor.World, host: Uuid, d: Uuid)
    requires DeviceService.Visible(w.store.devices, d) && w.store.devices[d].assocState == Pending
    ensures
      var w' := Supervisor.Step(w, Supervisor.Request(Some(HostPrincipal(host)), Supervisor.ConfirmDevice(d)));
      && DeviceService.Visible(w'.store.devices, d)
      && w'.store.devices[d].assocState == Associated && w'.store.devices[d].hostId == Some(host)
      && w'.pending == w.pending
  {
  }

  /** One reset of an ASSOCIATED device by the host it is bound to, seen from the supervisor: the device is UNASSOCIATED again. */
  lemma ResetStep(w: Supervisor.World, host: Uuid, d: Uuid)
    requires DeviceService.Visible(w.store.devices, d) && w.store.devices[d].hostId == Some(host)
    requires w.store.devices[d].assocState == Associated
    ensures
      var w' := Supervisor.Step(w, Supervisor.Request(Some(HostPrincipal(host)), Supervisor.ResetDevice(d)));
      && DeviceService.Visible(w'.store.devices, d)
      && w'.store.devices[d].assocState == Unassociated
      && w'.pending == w.pending
  {
  }

  /**
    Claim, confirm, reset and claim again, from an empty queue: the device
    is PENDING for the second claimer and both claims' checks are queued.
   */
  lemma ClaimConfirmResetClaim(store: Store, u1: Uuid, u2: Uuid, host: Uuid, d: Uuid,
                               w1: Supervisor.World, w2: Supervisor.World, w3: Supervisor.World, w4: Supervisor.World)
    requires DeviceService.Visible(store.devices, d) && store.devices[d].assocState == Unassociated
    requires w1 == Supervisor.Step(Supervisor.World(store, []), Supervisor.Request(Some(UserPrincipal(u1)), Supervisor.BeginDevice(d)))
    requires w2 == Supervisor.Step(w1, Supervisor.Request(Some(HostPrincipal(host)), Supervisor.ConfirmDevice(d)))
    requires w3 == Supervisor.Step(w2, Supervisor.Request(Some(HostPrincipal(host)), Supervisor.ResetDevice(d)))
    requires w4 == Supervisor.Step(w3, Supervisor.Request(Some(UserPrincipal(u2)), Supervisor.BeginDevice(d)))
    ensures DeviceService.Visible(w4.store.devices, d)
    ensures w4.store.devices[d].assocState == Pending && w4.store.devices[d].ownerId == Some(u2)
    ensures w4.pending == [DeviceCheck(d), DeviceCheck(d)]
  {
    ClaimStep(Supervisor.World(store, []), u1, d);
    ConfirmStep(w1, host, d);
    ResetStep(w2, host, d);
    ClaimStep(w3, u2, d);
  }

  /**
    A re-check is not tied to the claim that launched it. Claim, confirm
    and reset a device, then claim it again: when the first claim's check
    comes due, the device is PENDING for the second claim, so the check
    resets it at once, long before the second claim's own window ends,
    and the second claim's check is still queued.
   */
  lemma StaleCheckCutsNewClaimShort(store: Store, u1: Uuid, u2: Uuid, host: Uuid, d: Uuid,
                                     w1: Supervisor.World, w2: Supervisor.World, w3: Supervisor.World,
                                     w4: Supervisor.World, w5: Supervisor.World)
    requires DeviceService.Visible(store.devices, d) && store.devices[d].assocState == Unassociated
    requires w1 == Supervisor.Step(Supervisor.World(store, []), Supervisor.Request(Some(UserPrincipal(u1)), Supervisor.BeginDevice(d)))
    requires w2 == Supervisor.Step(w1, Supervisor.Request(Some(HostPrincipal(host)), Supervisor.ConfirmDevice(d)))
    requires w3 == Supervisor.Step(w2, Supervisor.Request(Some(HostPrincipal(host)), Supervisor.ResetDevice(d)))
    requires w4 == Supervisor.Step(w3, Supervisor.Request(Some(UserPrincipal(u2)), Supervisor.BeginDevice(d)))
    requires w5 == Supervisor.Step(w4, Supervisor.Timeout)
    ensures w4.store.devices[d].assocState == Pending && w4.store.devices[d].ownerId == Some(u2)
    ensures w5.store.devices[d].assocState == Unassociated && w5.store.devices[d].ownerId.None?
    ensures w5.pending == [DeviceCheck(d)]
  {
    ClaimConfirmResetClaim(store, u1, u2, host, d, w1, w2, w3, w4);
    TimeoutUndoesUnconfirmed(w4, d);
  }

  /**
    A host reset whose device list went stale (a listed device was disabled
    after the lookup) is answered 500, yet the host itself is reset.
   */
  lemma StaleCascadeReportsFailure(s: Store, host: Uuid, ids: seq<Uuid>, d: Uuid)
    requires HostService.Visible(s.hosts, host)
    requires d in ids && d in s.devices && !s.devices[d].enabled
    ensures
      var r := HostResetCommit(s, host, ids);
      && r.status == InternalError
      && r.store.hosts[host].assocState == Unassociated
      && r.store.hosts[host].ownerId.None?
  {
  }

  /** Claiming a disabled device is answered 422, as for any non-UNASSOCIATED read, and writes nothing. */
  lemma DisabledDeviceCannotBeClaimed(s: Store, user: Uuid, d: Uuid)
    requires d in s.devices && !s.devices[d].enabled
    ensures DeviceBeginAssoc(s, Some(UserPrincipal(user)), d) == Reply(Unprocessable, s, [])
  {
  }

  /**
    No caller that arrives with a user token can reset a device: the JWT
    providers only ever produce user principals (or none), and the reset
    handler answers 401 to both, leaving the store alone.
   */
  lemma UserTokenNeverResetsDevice(s: Store, check: JwtCheck, parseUuid: string -> Option<Uuid>, d: Uuid)
    ensures
      var auth := JwtAuthenticate(s.users, check, parseUuid);
      DeviceResetAssoc(s, auth, d) == Reply(Unauthorized, s, [])
  {
  }

  /** A host that a device is not bound to cannot reset it: 401, nothing written. */
  lemma ForeignHostCannotReset(s: Store, host: Uuid, d: Uuid)
    requires !(DeviceService.Visible(s.devices, d) && s.devices[d].hostId == Some(host))
    ensures DeviceResetAssoc(s, Some(HostPrincipal(host)), d) == Reply(Unauthorized, s, [])
  {
  }

  /**
    A host can confirm itself straight from UNASSOCIATED, so an ASSOCIATED
    host need not have an owner.
   */
  lemma HostConfirmsWithoutOwner(s: Store, host: Uuid)
    requires HostService.Visible(s.hosts, host)
    requires s.hosts[host].assocState == Unassociated && s.hosts[host].ownerId.None?
    ensures
      var r := HostConfirmAssoc(s, Some(HostPrincipal(host)));
      && r.status == Ok
      && r.store.hosts[host].assocState == Associated
      && r.store.hosts[host].ownerId.None?
  {
  }

  /**
    Placing a device in a house ignores the association state, so an
    UNASSOCIATED device can have a house.
   */
  lemma UnassociatedDeviceInHouse(s: Store, auth: Option<Principal>, d: Uuid, house: Uuid)
    requires IsUser(auth)
    requires DeviceService.Visible(s.devices, d) && s.devices[d].assocState == Unassociated
    ensures
      var r := DeviceHouseAssoc(s, auth, d, house);
      && r.status == Ok
      && r.store.devices[d].assocState == Unassociated
      && r.store.devices[d].houseId == Some(house)
  {
  }
}
