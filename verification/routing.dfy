/**
  The association-related request handlers of the routing plugin, each a
  pure function from the store, the principal the route's authentication
  provider established (None when it established none) and the already
  decoded request body to a Reply: the status sent, the store afterwards,
  and the deferred re-checks the handler launched.

  A handler first reads the association state and then calls a service
  update that does not re-test it. The begin, confirm and host-reset
  handlers are therefore split into the read and a `...Commit` step that
  takes what was read, so that other requests can be placed in between.
 */
module Routing {
  import opened Wrappers
  import opened Tables
  import opened Schema
  import opened Security
  import DeviceService
  import HostService
  import UserService
  import HouseService

  /** A re-check launched by a successful beginAssoc, to run once the association window has passed. */
  datatype Check = DeviceCheck(id: Uuid) | HostCheck(id: Uuid)

  /** What a handler does: the status it answers, the store afterwards, the re-checks it launched. */
  datatype Reply = Reply(status: Status, store: Store, queued: seq<Check>)

  /** The call carries a user principal (what `call.principal<UserPrincipal>()` needs). */
  predicate IsUser(auth: Option<Principal>) {
    auth.Some? && auth.value.UserPrincipal?
  }

  /** The call carries a host principal (what `call.principal<HostPrincipal>()` needs). */
  predicate IsHost(auth: Option<Principal>) {
    auth.Some? && auth.value.HostPrincipal?
  }

  /** The caller is a user principal whose row exists and is enabled. */
  ghost predicate IsEnabledUser(s: Store, auth: Option<Principal>) {
    IsUser(auth) && UserService.Visible(s.users, auth.value.id)
  }

  /** The caller is an enabled user with the admin flag. */
  ghost predicate IsAdmin(s: Store, auth: Option<Principal>) {
    IsEnabledUser(s, auth) && s.users[auth.value.id].isAdmin
  }

  /** Outcome of the admin check at the head of register/enable/disable. */
  datatype Gate = Admitted(admin: Uuid) | Refused(failure: Failure)

  /**
    The admin check: no principal, a non-user principal, or a user that
    `user(id)` does not find (missing or disabled) is refused as
    unauthenticated; an enabled non-admin as unauthorized.
   */
  function AdminGate(s: Store, auth: Option<Principal>): (g: Gate)
    ensures g.Admitted? <==> IsAdmin(s, auth)
    ensures g.Admitted? ==> g.admin == auth.value.id
    ensures !IsEnabledUser(s, auth) ==> g == Refused(AuthenticationException)
    ensures IsEnabledUser(s, auth) && !IsAdmin(s, auth) ==> g == Refused(AuthorizationException)
  {
    match auth
    case Some(UserPrincipal(id)) =>
      (match UserService.Get(s.users, id)
       case None => Refused(AuthenticationException)
       case Some(user) => if !user.isAdmin then Refused(AuthorizationException) else Admitted(id))
    case _ => Refused(AuthenticationException)
  }

  /** The reply for a refused gate: its exception's status, nothing written, nothing launched. */
  function Reject(s: Store, g: Gate): Reply
    requires g.Refused?
  {
    Reply(StatusOf(g.failure), s, [])
  }

  // ---------------------------------------------------------------- users

  /** POST user/enable. */
  function UserEnable(s: Store, auth: Option<Principal>, target: Uuid): (r: Reply)
    ensures !IsEnabledUser(s, auth) ==> r == Reply(Unauthorized, s, [])
    ensures IsEnabledUser(s, auth) && !IsAdmin(s, auth) ==> r == Reply(Forbidden, s, [])
    ensures IsAdmin(s, auth) ==>
      && (r.status == Ok <==> target in s.users && !s.users[target].isAdmin)
      && (r.status == Ok ==> r.store == s.(users := s.users[target := s.users[target].(enabled := true)]))
      && (r.status != Ok ==> r == Reply(NotFound, s, []))
    ensures r.queued == [] && Coherent(s) ==> Coherent(r.store)
  {
    match AdminGate(s, auth)
    case Refused(_) => Reject(s, AdminGate(s, auth))
    case Admitted(_) =>
      var w := UserService.Enable(s.users, target);
      if w.matched then Reply(Ok, s.(users := w.rows), []) else Reply(NotFound, s, [])
  }

  /** POST user/disable. An admin target is never disabled: it reads as not found. */
  function UserDisable(s: Store, auth: Option<Principal>, target: Uuid): (r: Reply)
    ensures !IsEnabledUser(s, auth) ==> r == Reply(Unauthorized, s, [])
    ensures IsEnabledUser(s, auth) && !IsAdmin(s, auth) ==> r == Reply(Forbidden, s, [])
    ensures IsAdmin(s, auth) ==>
      && (r.status == Ok <==> target in s.users && !s.users[target].isAdmin)
      && (r.status == Ok ==> r.store == s.(users := s.users[target := s.users[target].(enabled := false)]))
      && (r.status != Ok ==> r == Reply(NotFound, s, []))
    ensures r.queued == [] && Coherent(s) ==> Coherent(r.store)
  {
    match AdminGate(s, auth)
    case Refused(_) => Reject(s, AdminGate(s, auth))
    case Admitted(_) =>
      var w := UserService.Disable(s.users, target);
      if w.matched then Reply(Ok, s.(users := w.rows), []) else Reply(NotFound, s, [])
  }

  // -------------------------------------------------------------- devices

  /** POST device/changeUpdateFrequency. */
  function DeviceChangeUpdateFrequency(s: Store, auth: Option<Principal>, id: Uuid, f: U32): (r: Reply)
    ensures !IsUser(auth) ==> r == Reply(Unauthorized, s, [])
    ensures IsUser(auth) ==>
      && (r.status == Ok <==> DeviceService.Visible(s.devices, id))
      && (r.status == Ok ==> r.store == s.(devices := s.devices[id := s.devices[id].(updateFrequency := f)]))
      && (r.status != Ok ==> r == Reply(Unprocessable, s, []))
    ensures r.queued == [] && Coherent(s) ==> Coherent(r.store)
  {
    if !IsUser(auth) then Reply(Unauthorized, s, [])
    else
      var w := DeviceService.ChangeUpdateFrequency(s.devices, id, f);
      if w.matched then Reply(Ok, s.(devices := w.rows), []) else Reply(Unprocessable, s, [])
  }

  /**
    The write half of POST device/beginAssoc: `seen` is the state read
    before (null when the device was missing or disabled) and `s` the store
    at the time of the write, which the update does not re-test.
   */
  function DeviceBeginCommit(s: Store, caller: Uuid, id: Uuid, seen: Option<AssociationState>): (r: Reply)
    ensures seen != Some(Unassociated) ==> r == Reply(Unprocessable, s, [])
    ensures seen == Some(Unassociated) && !DeviceService.Visible(s.devices, id) ==> r == Reply(NotFound, s, [])
    ensures seen == Some(Unassociated) && DeviceService.Visible(s.devices, id) ==>
      && r.status == Ok
      && r.queued == [DeviceCheck(id)]
      && r.store == s.(devices := s.devices[id := s.devices[id].(assocState := Pending, ownerId := Some(caller))])
  {
    if seen == Some(Unassociated) then
      var w := DeviceService.BeginAssoc(s.devices, id, caller);
      if w.matched then Reply(Ok, s.(devices := w.rows), [DeviceCheck(id)]) else Reply(NotFound, s, [])
    else Reply(Unprocessable, s, [])
  }

  /**
    POST device/beginAssoc: a user claims a device. It succeeds exactly when
    the device is enabled and UNASSOCIATED; the device becomes PENDING with
    the caller as owner and one re-check is launched. Anything else,
    including a missing or disabled device, is 422 with no write.
   */
  function DeviceBeginAssoc(s: Store, auth: Option<Principal>, id: Uuid): (r: Reply)
    ensures !IsUser(auth) ==> r == Reply(Unauthorized, s, [])
    ensures IsUser(auth) ==>
      && (r.status == Ok <==> DeviceService.Visible(s.devices, id) && s.devices[id].assocState == Unassociated)
      && (r.status == Ok ==>
            && r.queued == [DeviceCheck(id)]
            && r.store == s.(devices := s.devices[id := s.devices[id].(assocState := Pending, ownerId := Some(auth.value.id))]))
      && (r.status != Ok ==> r == Reply(Unprocessable, s, []))
    ensures Coherent(s) ==> Coherent(r.store)
  {
    match auth
    case Some(UserPrincipal(caller)) => DeviceBeginCommit(s, caller, id, DeviceService.AssocState(s.devices, id))
    case _ => Reply(Unauthorized, s, [])
  }

  /** POST device/houseAssoc: any caller holding a user access token places an enabled device in a house, in any state. */
  function DeviceHouseAssoc(s: Store, auth: Option<Principal>, id: Uuid, house: Uuid): (r: Reply)
    ensures !IsUser(auth) ==> r == Reply(Unauthorized, s, [])
    ensures IsUser(auth) ==>
      && (r.status == Ok <==> DeviceService.Visible(s.devices, id))
      && (r.status == Ok ==> r.store == s.(devices := s.devices[id := s.devices[id].(houseId := Some(house))]))
      && (r.status != Ok ==> r == Reply(NotFound, s, []))
    ensures r.queued == [] && Coherent(s) ==> Coherent(r.store)
  {
    if !IsUser(auth) then Reply(Unauthorized, s, [])
    else
      var w := DeviceService.HouseAssoc(s.devices, id, house);
      if w.matched then Reply(Ok, s.(devices := w.rows), []) else Reply(NotFound, s, [])
  }

  /** GET device/register: an admin inserts a fresh device row; a rejected insert is 500. */
  function DeviceRegister(s: Store, auth: Option<Principal>, freshId: Uuid, kindFill: Option<DeviceType>): (r: Reply)
    ensures !IsEnabledUser(s, auth) ==> r == Reply(Unauthorized, s, [])
    ensures IsEnabledUser(s, auth) && !IsAdmin(s, auth) ==> r == Reply(Forbidden, s, [])
    ensures IsAdmin(s, auth) ==>
      && (r.status == Ok <==> freshId !in s.devices && kindFill.Some?)
      && (r.status == Ok ==> r.store == s.(devices := s.devices[freshId := FreshDeviceRow(kindFill.value)]))
      && (r.status != Ok ==> r == Reply(InternalError, s, []))
    ensures r.queued == [] && Coherent(s) ==> Coherent(r.store)
  {
    match AdminGate(s, auth)
    case Refused(_) => Reject(s, AdminGate(s, auth))
    case Admitted(_) =>
      var ins := DeviceService.Register(s.devices, freshId, kindFill);
      if ins.created.None? then Reply(InternalError, s, []) else Reply(Ok, s.(devices := ins.rows), [])
  }

  /** POST device/enable. */
  function DeviceEnable(s: Store, auth: Option<Principal>, id: Uuid): (r: Reply)
    ensures !IsEnabledUser(s, auth) ==> r == Reply(Unauthorized, s, [])
    ensures IsEnabledUser(s, auth) && !IsAdmin(s, auth) ==> r == Reply(Forbidden, s, [])
    ensures IsAdmin(s, auth) ==>
      && (r.status == Ok <==> id in s.devices)
      && (r.status == Ok ==> r.store == s.(devices := s.devices[id := s.devices[id].(enabled := true)]))
      && (r.status != Ok ==> r == Reply(NotFound, s, []))
    ensures r.queued == [] && Coherent(s) ==> Coherent(r.store)
  {
    match AdminGate(s, auth)
    case Refused(_) => Reject(s, AdminGate(s, auth))
    case Admitted(_) =>
      var w := DeviceService.Enable(s.devices, id);
      if w.matched then Reply(Ok, s.(devices := w.rows), []) else Reply(NotFound, s, [])
  }

  /** POST device/disable. */
  function DeviceDisable(s: Store, auth: Option<Principal>, id: Uuid): (r: Reply)
    ensures !IsEnabledUser(s, auth) ==> r == Reply(Unauthorized, s, [])
    ensures IsEnabledUser(s, auth) && !IsAdmin(s, auth) ==> r == Reply(Forbidden, s, [])
    ensures IsAdmin(s, auth) ==>
      && (r.status == Ok <==> id in s.devices)
      && (r.status == Ok ==> r.store == s.(devices := s.devices[id := s.devices[id].(enabled := false)]))
      && (r.status != Ok ==> r == Reply(NotFound, s, []))
    ensures r.queued == [] && Coherent(s) ==> Coherent(r.store)
  {
    match AdminGate(s, auth)
    case Refused(_) => Reject(s, AdminGate(s, auth))
    case Admitted(_) =>
      var w := DeviceService.Disable(s.devices, id);
      if w.matched then Reply(Ok, s.(devices := w.rows), []) else Reply(NotFound, s, [])
  }

  /** The write half of POST device/confirmAssoc, given the state read before. */
  function DeviceConfirmCommit(s: Store, host: Uuid, id: Uuid, seen: Option<AssociationState>): (r: Reply)
    ensures r.queued == []
    ensures seen != Some(Pending) ==> r == Reply(Unprocessable, s, [])
    ensures seen == Some(Pending) && !DeviceService.Visible(s.devices, id) ==> r == Reply(NotFound, s, [])
    ensures seen == Some(Pending) && DeviceService.Visible(s.devices, id) ==>
      && r.status == Ok
      && r.store == s.(devices := s.devices[id := s.devices[id].(assocState := Associated, hostId := Some(host))])
  {
    if seen == Some(Pending) then
      var w := DeviceService.ConfirmAssoc(s.devices, id, host);
      if w.matched then Reply(Ok, s.(devices := w.rows), []) else Reply(NotFound, s, [])
    else Reply(Unprocessable, s, [])
  }

  /**
    POST device/confirmAssoc: the calling host binds a PENDING device to
    itself, making it ASSOCIATED. Any other state is 422 with no write, so
    a repeated confirm gets 422.
   */
  function DeviceConfirmAssoc(s: Store, auth: Option<Principal>, id: Uuid): (r: Reply)
    ensures !IsHost(auth) ==> r == Reply(Unauthorized, s, [])
    ensures IsHost(auth) ==>
      && (r.status == Ok <==> DeviceService.Visible(s.devices, id) && s.devices[id].assocState == Pending)
      && (r.status == Ok ==>
            r.store == s.(devices := s.devices[id := s.devices[id].(assocState := Associated, hostId := Some(auth.value.id))]))
      && (r.status != Ok ==> r == Reply(Unprocessable, s, []))
    ensures r.queued == [] && Coherent(s) ==> Coherent(r.store)
  {
    match auth
    case Some(HostPrincipal(host)) => DeviceConfirmCommit(s, host, id, DeviceService.AssocState(s.devices, id))
    case _ => Reply(Unauthorized, s, [])
  }

  /**
    The write half of POST device/resetAssoc for a host caller. `bound` is
    what the lookup of the device found (an enabled device bound to the
    caller) and `seen` the state read after it; the reset itself does not
    re-test either, so it clears the device in whatever state it now is.
   */
  function DeviceResetCommit(s: Store, id: Uuid, bound: bool, seen: Option<AssociationState>): (r: Reply)
    ensures r.queued == []
    ensures !bound ==> r == Reply(Unauthorized, s, [])
    ensures bound && seen != Some(Associated) ==> r == Reply(Unprocessable, s, [])
    ensures bound && seen == Some(Associated) && !DeviceService.Visible(s.devices, id) ==> r == Reply(NotFound, s, [])
    ensures bound && seen == Some(Associated) && DeviceService.Visible(s.devices, id) ==>
      r == Reply(Ok, s.(devices := s.devices[id := DeviceService.Cleared(s.devices[id])]), [])
    ensures Coherent(s) ==> Coherent(r.store)
  {
    if !bound then Reply(Unauthorized, s, [])
    else if seen != Some(Associated) then Reply(Unprocessable, s, [])
    else
      var w := DeviceService.ResetAssoc(s.devices, id);
      if w.matched then Reply(Ok, s.(devices := w.rows), []) else Reply(NotFound, s, [])
  }

  /**
    POST device/resetAssoc, reachable with an API key or a user token. A
    host may reset an ASSOCIATED device bound to it; a device that is
    missing, disabled or bound elsewhere is 401, one in another state 422.
    The user branch of the source tests for the JWT library's principal
    class, which the JWT providers never produce (they produce a user
    principal), so every user caller falls through to 401.
   */
  function DeviceResetAssoc(s: Store, auth: Option<Principal>, id: Uuid): (r: Reply)
    ensures !IsHost(auth) ==> r == Reply(Unauthorized, s, [])
    ensures IsHost(auth) ==>
      var bound := DeviceService.Visible(s.devices, id) && s.devices[id].hostId == Some(auth.value.id);
      && (!bound ==> r == Reply(Unauthorized, s, []))
      && (bound && s.devices[id].assocState != Associated ==> r == Reply(Unprocessable, s, []))
      && (bound && s.devices[id].assocState == Associated ==>
            r == Reply(Ok, s.(devices := s.devices[id := DeviceService.Cleared(s.devices[id])]), []))
    ensures r.queued == [] && Coherent(s) ==> Coherent(r.store)
  {
    match auth
    case Some(HostPrincipal(host)) =>
      var device := DeviceService.Get(s.devices, id);
      DeviceResetCommit(s, id, device.Some? && device.value.hostId == Some(host), DeviceService.AssocState(s.devices, id))
    case _ => Reply(Unauthorized, s, [])
  }

  // ---------------------------------------------------------------- hosts

  /** GET host/register: an admin inserts a fresh host row; a rejected insert is 500. */
  function HostRegister(s: Store, auth: Option<Principal>, freshId: Uuid, keyFill: Option<Uuid>): (r: Reply)
    ensures !IsEnabledUser(s, auth) ==> r == Reply(Unauthorized, s, [])
    ensures IsEnabledUser(s, auth) && !IsAdmin(s, auth) ==> r == Reply(Forbidden, s, [])
    ensures IsAdmin(s, auth) ==>
      && (r.status == Ok <==> freshId !in s.hosts && keyFill.Some?)
      && (r.status == Ok ==> r.store == s.(hosts := s.hosts[freshId := FreshHostRow(keyFill.value)]))
      && (r.status != Ok ==> r == Reply(InternalError, s, []))
    ensures r.queued == [] && Coherent(s) ==> Coherent(r.store)
  {
    match AdminGate(s, auth)
    case Refused(_) => Reject(s, AdminGate(s, auth))
    case Admitted(_) =>
      var ins := HostService.Register(s.hosts, freshId, keyFill);
      if ins.created.None? then Reply(InternalError, s, []) else Reply(Ok, s.(hosts := ins.rows), [])
  }

  /** The write half of POST host/beginAssoc, given the state read before. */
  function HostBeginCommit(s: Store, caller: Uuid, id: Uuid, seen: Option<AssociationState>): (r: Reply)
    ensures seen != Some(Unassociated) ==> r == Reply(Unprocessable, s, [])
    ensures seen == Some(Unassociated) && !HostService.Visible(s.hosts, id) ==> r == Reply(NotFound, s, [])
    ensures seen == Some(Unassociated) && HostService.Visible(s.hosts, id) ==>
      && r.status == Ok
      && r.queued == [HostCheck(id)]
      && r.store == s.(hosts := s.hosts[id := s.hosts[id].(assocState := Pending, ownerId := Some(caller))])
  {
    if seen == Some(Unassociated) then
      var w := HostService.BeginAssoc(s.hosts, id, caller);
      if w.matched then Reply(Ok, s.(hosts := w.rows), [HostCheck(id)]) else Reply(NotFound, s, [])
    else Reply(Unprocessable, s, [])
  }

  /**
    POST host/beginAssoc: a user claims an enabled UNASSOCIATED host, which
    becomes PENDING with the caller as owner, and one re-check is launched.
   */
  function HostBeginAssoc(s: Store, auth: Option<Principal>, id: Uuid): (r: Reply)
    ensures !IsUser(auth) ==> r == Reply(Unauthorized, s, [])
    ensures IsUser(auth) ==>
      && (r.status == Ok <==> HostService.Visible(s.hosts, id) && s.hosts[id].assocState == Unassociated)
      && (r.status == Ok ==>
            && r.queued == [HostCheck(id)]
            && r.store == s.(hosts := s.hosts[id := s.hosts[id].(assocState := Pending, ownerId := Some(auth.value.id))]))
      && (r.status != Ok ==> r == Reply(Unprocessable, s, []))
    ensures Coherent(s) ==> Coherent(r.store)
  {
    match auth
    case Some(UserPrincipal(caller)) => HostBeginCommit(s, caller, id, HostService.AssocState(s.hosts, id))
    case _ => Reply(Unauthorized, s, [])
  }

  /** POST host/houseAssoc: any caller holding a user access token places an enabled host in a house, in any state. */
  function HostHouseAssoc(s: Store, auth: Option<Principal>, id: Uuid, house: Uuid): (r: Reply)
    ensures !IsUser(auth) ==> r == Reply(Unauthorized, s, [])
    ensures IsUser(auth) ==>
      && (r.status == Ok <==> HostService.Visible(s.hosts, id))
      && (r.status == Ok ==> r.store == s.(hosts := s.hosts[id := s.hosts[id].(houseId := Some(house))]))
      && (r.status != Ok ==> r == Reply(NotFound, s, []))
    ensures r.queued == [] && Coherent(s) ==> Coherent(r.store)
  {
    if !IsUser(auth) then Reply(Unauthorized, s, [])
    else
      var w := HostService.HouseAssoc(s.hosts, id, house);
      if w.matched then Reply(Ok, s.(hosts := w.rows), []) else Reply(NotFound, s, [])
  }

  /** The ids of a list of devices, in order. */
  function Ids(ds: seq<Device>): (r: seq<Uuid>)
    ensures |r| == |ds|
    ensures forall i :: 0 <= i < |ds| ==> r[i] == ds[i].id
  {
    seq(|ds|, i requires 0 <= i < |ds| => ds[i].id)
  }

  /**
    The write half of POST host/resetAssoc, given the device ids the lookup
    returned: those devices are reset one by one, then the host. The answer
    is OK only if the host reset and every device reset matched; otherwise
    500, with whatever was reset staying reset.
   */
  function HostResetCommit(s: Store, hostId: Uuid, ids: seq<Uuid>): (r: Reply)
    ensures r.queued == [] && r.store.users == s.users && r.store.houses == s.houses
    ensures r.status == Ok <==>
      HostService.Visible(s.hosts, hostId) && forall i :: 0 <= i < |ids| ==> DeviceService.Visible(s.devices, ids[i])
    ensures r.status != Ok ==> r.status == InternalError
    ensures r.store.hosts ==
      if HostService.Visible(s.hosts, hostId) then s.hosts[hostId := HostService.Cleared(s.hosts[hostId])] else s.hosts
    ensures r.store.devices.Keys == s.devices.Keys
    ensures forall k :: k in s.devices ==>
      r.store.devices[k] == if k in ids && s.devices[k].enabled then DeviceService.Cleared(s.devices[k]) else s.devices[k]
    ensures Coherent(s) ==> Coherent(r.store)
  {
    var batch := DeviceService.ResetEach(s.devices, ids);
    var host := HostService.ResetAssoc(s.hosts, hostId);
    var status := if host.matched && false !in batch.results then Ok else InternalError;
    assert false !in batch.results <==> forall i :: 0 <= i < |ids| ==> batch.results[i];
    Reply(status, s.(devices := batch.rows, hosts := host.rows), [])
  }

  /**
    POST host/resetAssoc: any caller holding a user access token, with no ownership check.
    Every enabled device bound to the host is reset, whatever becomes of the
    host, and then the host; run on its own, the answer is OK exactly when
    the host is enabled, and 500 otherwise.
   */
  function HostResetAssoc(s: Store, auth: Option<Principal>, hostId: Uuid): (r: Reply)
    ensures !IsUser(auth) ==> r == Reply(Unauthorized, s, [])
    ensures IsUser(auth) ==>
      && r.queued == [] && r.store.users == s.users && r.store.houses == s.houses
      && (r.status == Ok <==> HostService.Visible(s.hosts, hostId))
      && (r.status != Ok ==> r.status == InternalError)
      && r.store.hosts ==
           (if HostService.Visible(s.hosts, hostId) then s.hosts[hostId := HostService.Cleared(s.hosts[hostId])] else s.hosts)
      && r.store.devices.Keys == s.devices.Keys
      && (forall k :: k in s.devices ==>
            r.store.devices[k] ==
              if s.devices[k].enabled && s.devices[k].hostId == Some(hostId) then DeviceService.Cleared(s.devices[k])
              else s.devices[k])
    ensures Coherent(s) ==> Coherent(r.store)
  {
    if !IsUser(auth) then Reply(Unauthorized, s, [])
    else
      var bound := DeviceService.AllHost(s.devices, hostId);
      var ids := Ids(bound);
      assert forall k :: k in ids <==> DeviceService.Visible(s.devices, k) && s.devices[k].hostId == Some(hostId) by {
        forall k
          ensures k in ids <==> DeviceService.Visible(s.devices, k) && s.devices[k].hostId == Some(hostId)
        {
          if k in ids {
            var i :| 0 <= i < |ids| && ids[i] == k;
            assert bound[i] in bound;
          }
          if DeviceService.Visible(s.devices, k) && s.devices[k].hostId == Some(hostId) {
            var d := DeviceRecord(k, s.devices[k]);
            assert d in bound;
            var i :| 0 <= i < |bound| && bound[i] == d;
            assert ids[i] == k;
          }
        }
      }
      HostResetCommit(s, hostId, ids)
  }

  /** POST host/enable. */
  function HostEnable(s: Store, auth: Option<Principal>, id: Uuid): (r: Reply)
    ensures !IsEnabledUser(s, auth) ==> r == Reply(Unauthorized, s, [])
    ensures IsEnabledUser(s, auth) && !IsAdmin(s, auth) ==> r == Reply(Forbidden, s, [])
    ensures IsAdmin(s, auth) ==>
      && (r.status == Ok <==> id in s.hosts)
      && (r.status == Ok ==> r.store == s.(hosts := s.hosts[id := s.hosts[id].(enabled := true)]))
      && (r.status != Ok ==> r == Reply(NotFound, s, []))
    ensures r.queued == [] && Coherent(s) ==> Coherent(r.store)
  {
    match AdminGate(s, auth)
    case Refused(_) => Reject(s, AdminGate(s, auth))
    case Admitted(_) =>
      var w := HostService.Enable(s.hosts, id);
      if w.matched then Reply(Ok, s.(hosts := w.rows), []) else Reply(NotFound, s, [])
  }

  /** POST host/disable. */
  function HostDisable(s: Store, auth: Option<Principal>, id: Uuid): (r: Reply)
    ensures !IsEnabledUser(s, auth) ==> r == Reply(Unauthorized, s, [])
    ensures IsEnabledUser(s, auth) && !IsAdmin(s, auth) ==> r == Reply(Forbidden, s, [])
    ensures IsAdmin(s, auth) ==>
      && (r.status == Ok <==> id in s.hosts)
      && (r.status == Ok ==> r.store == s.(hosts := s.hosts[id := s.hosts[id].(enabled := false)]))
      && (r.status != Ok ==> r == Reply(NotFound, s, []))
    ensures r.queued == [] && Coherent(s) ==> Coherent(r.store)
  {
    match AdminGate(s, auth)
    case Refused(_) => Reject(s, AdminGate(s, auth))
    case Admitted(_) =>
      var w := HostService.Disable(s.hosts, id);
      if w.matched then Reply(Ok, s.(hosts := w.rows), []) else Reply(NotFound, s, [])
  }

  /**
    POST host/confirmAssoc: the calling host marks itself ASSOCIATED from any
    state, its owner untouched (possibly null); 404 only when its own row is
    missing or disabled.
   */
  function HostConfirmAssoc(s: Store, auth: Option<Principal>): (r: Reply)
    ensures !IsHost(auth) ==> r == Reply(Unauthorized, s, [])
    ensures IsHost(auth) ==>
      && (r.status == Ok <==> HostService.Visible(s.hosts, auth.value.id))
      && (r.status == Ok ==>
            r.store == s.(hosts := s.hosts[auth.value.id := s.hosts[auth.value.id].(assocState := Associated)]))
      && (r.status != Ok ==> r == Reply(NotFound, s, []))
    ensures r.queued == [] && Coherent(s) ==> Coherent(r.store)
  {
    match auth
    case Some(HostPrincipal(id)) =>
      var w := HostService.ConfirmAssoc(s.hosts, id);
      if w.matched then Reply(Ok, s.(hosts := w.rows), []) else Reply(NotFound, s, [])
    case _ => Reply(Unauthorized, s, [])
  }

  // --------------------------------------------------------------- houses

  /** POST house/new: the caller becomes the owner of a new house; a rejected insert is 500. */
  function HouseNew(s: Store, auth: Option<Principal>, name: string, freshId: Uuid): (r: Reply)
    ensures !IsUser(auth) ==> r == Reply(Unauthorized, s, [])
    ensures IsUser(auth) ==>
      && (r.status == Ok <==> freshId !in s.houses)
      && (r.status == Ok ==> r.store == s.(houses := s.houses[freshId := HouseRow(name, auth.value.id)]))
      && (r.status != Ok ==> r == Reply(InternalError, s, []))
    ensures r.queued == [] && Coherent(s) ==> Coherent(r.store)
  {
    match auth
    case Some(UserPrincipal(owner)) =>
      var ins := HouseService.New(s.houses, name, owner, freshId);
      if ins.created.None? then Reply(InternalError, s, []) else Reply(Ok, s.(houses := ins.rows), [])
    case _ => Reply(Unauthorized, s, [])
  }

  /** POST house/update: renames a house, with no ownership check; an unknown id is 500. */
  function HouseUpdate(s: Store, auth: Option<Principal>, house: House): (r: Reply)
    ensures !IsUser(auth) ==> r == Reply(Unauthorized, s, [])
    ensures IsUser(auth) ==>
      && (r.status == Ok <==> house.id in s.houses)
      && (r.status == Ok ==> r.store == s.(houses := s.houses[house.id := s.houses[house.id].(name := house.name)]))
      && (r.status != Ok ==> r == Reply(InternalError, s, []))
    ensures r.queued == [] && Coherent(s) ==> Coherent(r.store)
  {
    if !IsUser(auth) then Reply(Unauthorized, s, [])
    else
      var w := HouseService.Update(s.houses, house);
      if w.matched then Reply(Ok, s.(houses := w.rows), []) else Reply(InternalError, s, [])
  }

  /**
    POST house/delete: deletes only when neither the device lookup nor the
    host lookup for the house finds anything, and then answers OK whether or
    not a house row existed; otherwise 422. The host lookup compares the
    OWNER column, so hosts placed in the house do not block the delete,
    while a host owned by a user whose id equals the house id would.
   */
  function HouseDelete(s: Store, auth: Option<Principal>, houseId: Uuid): (r: Reply)
    ensures !IsUser(auth) ==> r == Reply(Unauthorized, s, [])
    ensures IsUser(auth) ==>
      var clear :=
        && (forall k :: DeviceService.Visible(s.devices, k) ==> s.devices[k].houseId != Some(houseId))
        && (forall k :: HostService.Visible(s.hosts, k) ==> s.hosts[k].ownerId != Some(houseId));
      && (clear ==> r == Reply(Ok, s.(houses := s.houses - {houseId}), []))
      && (!clear ==> r == Reply(Unprocessable, s, []))
    ensures r.queued == [] && Coherent(s) ==> Coherent(r.store)
  {
    if !IsUser(auth) then Reply(Unauthorized, s, [])
    else if |DeviceService.AllHouse(s.devices, houseId)| == 0 && |HostService.AllHouse(s.hosts, houseId)| == 0 then
      Reply(Ok, s.(houses := HouseService.Delete(s.houses, houseId).rows), [])
    else Reply(Unprocessable, s, [])
  }

  // ----------------------------------------------------------- re-checks

  /**
    The reset half of a launched re-check, given the state its read found:
    anything but ASSOCIATED (null included) leads to the reset, which does
    not re-test the state, so it clears the row whatever it is by now.
   */
  function RecheckCommit(s: Store, c: Check, seen: Option<AssociationState>): (s': Store)
    ensures s'.users == s.users && s'.houses == s.houses
    ensures seen == Some(Associated) ==> s' == s
    ensures c.DeviceCheck? ==> s'.hosts == s.hosts
    ensures c.DeviceCheck? && seen != Some(Associated) ==>
      s'.devices ==
        if DeviceService.Visible(s.devices, c.id) then s.devices[c.id := DeviceService.Cleared(s.devices[c.id])] else s.devices
    ensures c.HostCheck? ==> s'.devices == s.devices
    ensures c.HostCheck? && seen != Some(Associated) ==>
      s'.hosts ==
        if HostService.Visible(s.hosts, c.id) then s.hosts[c.id := HostService.Cleared(s.hosts[c.id])] else s.hosts
    ensures Coherent(s) ==> Coherent(s')
  {
    if seen == Some(Associated) then s
    else
      match c
      case DeviceCheck(id) => s.(devices := DeviceService.ResetAssoc(s.devices, id).rows)
      case HostCheck(id) => s.(hosts := HostService.ResetAssoc(s.hosts, id).rows)
  }

  /** The state a re-check reads: that of the enabled row it names, null when there is none. */
  function CheckedState(s: Store, c: Check): (r: Option<AssociationState>)
    ensures c.DeviceCheck? ==> r == DeviceService.AssocState(s.devices, c.id)
    ensures c.HostCheck? ==> r == HostService.AssocState(s.hosts, c.id)
  {
    match c
    case DeviceCheck(id) => DeviceService.AssocState(s.devices, id)
    case HostCheck(id) => HostService.AssocState(s.hosts, id)
  }

  /**
    The body of the launched block once its delay has passed, with nothing
    in between its read and its reset: the row is reset unless it is
    ASSOCIATED. A missing or disabled row reads as null, which is not
    ASSOCIATED, and its reset matches nothing. Nothing ties a check to the
    beginAssoc that launched it.
   */
  function Recheck(s: Store, c: Check): (s': Store)
    ensures s'.users == s.users && s'.houses == s.houses
    ensures c.DeviceCheck? ==> s'.hosts == s.hosts
    ensures c.DeviceCheck? ==>
      s'.devices ==
        if DeviceService.Visible(s.devices, c.id) && s.devices[c.id].assocState != Associated
        then s.devices[c.id := DeviceService.Cleared(s.devices[c.id])] else s.devices
    ensures c.HostCheck? ==> s'.devices == s.devices
    ensures c.HostCheck? ==>
      s'.hosts ==
        if HostService.Visible(s.hosts, c.id) && s.hosts[c.id].assocState != Associated
        then s.hosts[c.id := HostService.Cleared(s.hosts[c.id])] else s.hosts
    ensures Coherent(s) ==> Coherent(s')
  {
    RecheckCommit(s, c, CheckedState(s, c))
  }
}
