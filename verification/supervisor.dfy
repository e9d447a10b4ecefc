/**
  The server as a whole: requests handled one at a time, interleaved with
  the deferred re-checks the beginAssoc handlers launch. With one fixed
  association window for every check, checks come due in the order they
  were launched, so the launched-but-not-yet-run checks form a queue and a
  Timeout event runs the oldest. No clock is modelled: any number of
  requests may come between two timeouts. Nothing ever removes a check
  from the queue except running it.
 */
module Supervisor {
  import opened Wrappers
  import opened Schema
  import opened Security
  import Routing

  /** A request to one of the modelled routes, with its decoded body. */
  datatype Call =
    | EnableUser(target: Uuid)
    | DisableUser(target: Uuid)
    | ChangeFrequency(deviceId: Uuid, frequency: U32)
    | BeginDevice(deviceId: Uuid)
    | PlaceDevice(deviceId: Uuid, houseId: Uuid)
    | RegisterDevice(freshId: Uuid, kindFill: Option<DeviceType>)
    | EnableDevice(deviceId: Uuid)
    | DisableDevice(deviceId: Uuid)
    | ConfirmDevice(deviceId: Uuid)
    | ResetDevice(deviceId: Uuid)
    | RegisterHost(freshId: Uuid, keyFill: Option<Uuid>)
    | BeginHost(hostId: Uuid)
    | PlaceHost(hostId: Uuid, houseId: Uuid)
    | ResetHost(hostId: Uuid)
    | EnableHost(hostId: Uuid)
    | DisableHost(hostId: Uuid)
    | ConfirmHost
    | NewHouse(name: string, freshId: Uuid)
    | UpdateHouse(house: House)
    | DeleteHouse(houseId: Uuid)

  /** The routes guarded by the admin check. */
  predicate AdminOnly(call: Call) {
    || call.EnableUser? || call.DisableUser?
    || call.RegisterDevice? || call.EnableDevice? || call.DisableDevice?
    || call.RegisterHost? || call.EnableHost? || call.DisableHost?
  }

  /** The routes behind the access-token provider alone. */
  predicate AccessTokenOnly(call: Call) {
    !(call.ConfirmDevice? || call.ResetDevice? || call.ConfirmHost?)
  }

  /** The routes behind the API-key provider alone. */
  predicate ApiKeyOnly(call: Call) {
    call.ConfirmDevice? || call.ConfirmHost?
  }

  /**
    Routes a request to its handler. Whatever the request, the coherence
    invariant survives it, and at most one re-check is launched: a device
    check only by a device beginAssoc on that device, a host check only by
    a host beginAssoc on that host.
   */
  function Handle(s: Store, auth: Option<Principal>, call: Call): (r: Routing.Reply)
    ensures Coherent(s) ==> Coherent(r.store)
    ensures |r.queued| <= 1
    ensures forall c :: c in r.queued ==>
      || (call.BeginDevice? && c == Routing.DeviceCheck(call.deviceId))
      || (call.BeginHost? && c == Routing.HostCheck(call.hostId))
  {
    match call
    case EnableUser(target) => Routing.UserEnable(s, auth, target)
    case DisableUser(target) => Routing.UserDisable(s, auth, target)
    case ChangeFrequency(id, f) => Routing.DeviceChangeUpdateFrequency(s, auth, id, f)
    case BeginDevice(id) => Routing.DeviceBeginAssoc(s, auth, id)
    case PlaceDevice(id, house) => Routing.DeviceHouseAssoc(s, auth, id, house)
    case RegisterDevice(freshId, kindFill) => Routing.DeviceRegister(s, auth, freshId, kindFill)
    case EnableDevice(id) => Routing.DeviceEnable(s, auth, id)
    case DisableDevice(id) => Routing.DeviceDisable(s, auth, id)
    case ConfirmDevice(id) => Routing.DeviceConfirmAssoc(s, auth, id)
    case ResetDevice(id) => Routing.DeviceResetAssoc(s, auth, id)
    case RegisterHost(freshId, keyFill) => Routing.HostRegister(s, auth, freshId, keyFill)
    case BeginHost(id) => Routing.HostBeginAssoc(s, auth, id)
    case PlaceHost(id, house) => Routing.HostHouseAssoc(s, auth, id, house)
    case ResetHost(id) => Routing.HostResetAssoc(s, auth, id)
    case EnableHost(id) => Routing.HostEnable(s, auth, id)
    case DisableHost(id) => Routing.HostDisable(s, auth, id)
    case ConfirmHost => Routing.HostConfirmAssoc(s, auth)
    case NewHouse(name, freshId) => Routing.HouseNew(s, auth, name, freshId)
    case UpdateHouse(house) => Routing.HouseUpdate(s, auth, house)
    case DeleteHouse(houseId) => Routing.HouseDelete(s, auth, houseId)
  }

  /**
    The admin gate, across every admin-only route: a caller that is not an
    enabled user gets 401 and one that is not an admin gets 403, and in
    both cases nothing is written and nothing launched.
   */
  lemma AdminGateRefusals(s: Store, auth: Option<Principal>, call: Call)
    requires AdminOnly(call)
    ensures !Routing.IsEnabledUser(s, auth) ==> Handle(s, auth, call) == Routing.Reply(Unauthorized, s, [])
    ensures Routing.IsEnabledUser(s, auth) && !Routing.IsAdmin(s, auth) ==>
      Handle(s, auth, call) == Routing.Reply(Forbidden, s, [])
  {
  }

  /** The server's state: the store and the launched re-checks not yet run, oldest first. */
  datatype World = World(store: Store, pending: seq<Routing.Check>)

  /** Something that happens to the server: a request arrives, or the oldest re-check comes due. */
  datatype Event = Request(auth: Option<Principal>, call: Call) | Timeout

  /**
    One event. A request never removes a pending check, it only appends the
    ones it launched; a timeout runs the oldest check and drops it.
   */
  function Step(w: World, e: Event): (w': World)
    ensures e.Request? ==> w.pending <= w'.pending && |w'.pending| <= |w.pending| + 1
    ensures e.Timeout? && w.pending != [] ==> w'.pending == w.pending[1..]
    ensures e.Timeout? && w.pending == [] ==> w' == w
    ensures Coherent(w.store) ==> Coherent(w'.store)
  {
    match e
    case Request(auth, call) =>
      var r := Handle(w.store, auth, call);
      World(r.store, w.pending + r.queued)
    case Timeout =>
      if w.pending == [] then w
      else World(Routing.Recheck(w.store, w.pending[0]), w.pending[1..])
  }

  /** A run of events from a starting world. */
  function Run(w: World, es: seq<Event>): World
    decreases |es|
  {
    if es == [] then w else Run(Step(w, es[0]), es[1..])
  }

  /**
    Whatever requests arrive and whenever the re-checks fire, a coherent
    store stays coherent: an UNASSOCIATED device has no owner and no host,
    a PENDING device has an owner, an ASSOCIATED device has an owner and a
    host, an UNASSOCIATED host has no owner and a PENDING host has one.
   */
  lemma {:induction false} RunKeepsCoherent(w: World, es: seq<Event>)
    requires Coherent(w.store)
    ensures Coherent(Run(w, es).store)
    decreases |es|
  {
    if es != [] {
      RunKeepsCoherent(Step(w, es[0]), es[1..]);
    }
  }

  /** Checks are never cancelled: requests only add to the queue, and each timeout removes exactly the oldest. */
  lemma {:induction false} RunNeverCancels(w: World, es: seq<Event>)
    requires forall i :: 0 <= i < |es| ==> es[i].Request?
    ensures w.pending <= Run(w, es).pending
    decreases |es|
  {
    if es != [] {
      RunNeverCancels(Step(w, es[0]), es[1..]);
    }
  }

  /**
    A request that arrives with no principal (the provider found none) is
    answered with the providers' challenge status, 401, on every route,
    and nothing is written or launched.
   */
  lemma UnauthenticatedGetsChallenge(s: Store, call: Call)
    ensures Handle(s, None, call) == Routing.Reply(ChallengeStatus(), s, [])
    ensures Code(Handle(s, None, call).status) == 401
  {
  }

  /**
    A principal from the wrong provider is no principal at all for a route:
    a host's API key on a route behind the access-token provider, and a
    user's access token on a route behind the API-key provider, both get
    the challenge, with nothing written or launched.
   */
  lemma ProviderMismatchGetsChallenge(s: Store, id: Uuid, call: Call)
    ensures AccessTokenOnly(call) ==>
      Handle(s, Some(HostPrincipal(id)), call) == Routing.Reply(ChallengeStatus(), s, [])
    ensures ApiKeyOnly(call) ==>
      Handle(s, Some(UserPrincipal(id)), call) == Routing.Reply(ChallengeStatus(), s, [])
  {
  }
}
