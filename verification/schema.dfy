/**
  The rows of the four tables the association protocol works on (Users,
  Houses, Hosts, Devices), the records the services hand out, the two kinds
  of principal, and the invariants the association state machine keeps.
 */
module Schema {
  import opened Wrappers

  /** Row keys, owners, houses, hosts and API keys are all UUIDs in the source; one abstract type here. */
  type Uuid = nat

  /** The unsigned 32-bit column type `uinteger` (and Kotlin's `UInt`). */
  type U32 = x: int | 0 <= x < 0x1_0000_0000

  datatype AssociationState = Associated | Pending | Unassociated

  datatype DeviceType = ThSensor | PlantSensor

  /** A row of the Devices table; its `id` is the map key. */
  datatype DeviceRow = DeviceRow(
    kind: DeviceType,
    ownerId: Option<Uuid>,
    houseId: Option<Uuid>,
    hostId: Option<Uuid>,
    updateFrequency: U32,
    assocState: AssociationState,
    enabled: bool)

  type DeviceTable = map<Uuid, DeviceRow>

  /** The `Device` record a read returns: the row with its id, without `enabled`. */
  datatype Device = Device(
    id: Uuid,
    kind: DeviceType,
    ownerId: Option<Uuid>,
    houseId: Option<Uuid>,
    hostId: Option<Uuid>,
    updateFrequency: U32,
    assocState: AssociationState)

  function DeviceRecord(id: Uuid, row: DeviceRow): Device {
    Device(id, row.kind, row.ownerId, row.houseId, row.hostId, row.updateFrequency, row.assocState)
  }

  /** The column defaults of a device row when only `id` and `type` are given. */
  function FreshDeviceRow(kind: DeviceType): DeviceRow {
    DeviceRow(kind, None, None, None, 0, Unassociated, true)
  }

  /** A row of the Hosts table. */
  datatype HostRow = HostRow(
    apiKey: Uuid,
    ownerId: Option<Uuid>,
    houseId: Option<Uuid>,
    assocState: AssociationState,
    enabled: bool)

  type HostTable = map<Uuid, HostRow>

  /** The `Host` record: id, apiKey, ownerId, houseId and assocState, but not `enabled`. */
  datatype Host = Host(
    id: Uuid,
    apiKey: Uuid,
    ownerId: Option<Uuid>,
    houseId: Option<Uuid>,
    assocState: AssociationState)

  function HostRecord(id: Uuid, row: HostRow): Host {
    Host(id, row.apiKey, row.ownerId, row.houseId, row.assocState)
  }

  /** The column defaults of a host row when only `id` and `api_key` are given. */
  function FreshHostRow(apiKey: Uuid): HostRow {
    HostRow(apiKey, None, None, Unassociated, true)
  }

  /** A row of the Users table; `passwordHash` is an opaque string. */
  datatype UserRow = UserRow(
    name: string,
    mail: string,
    passwordHash: string,
    isAdmin: bool,
    enabled: bool)

  type UserTable = map<Uuid, UserRow>

  datatype User = User(id: Uuid, name: string, mail: string, passwordHash: string, isAdmin: bool)

  /** The public projection of a user. */
  datatype UserDto = UserDto(id: Uuid, name: string, mail: string)

  /** A row of the Houses table. Houses have no `enabled` column. */
  datatype HouseRow = HouseRow(name: string, ownerId: Uuid)

  type HouseTable = map<Uuid, HouseRow>

  datatype House = House(id: Uuid, name: string, ownerId: Uuid)

  /**
    The identity attached to a request: an end user (from a JWT) or a
    gateway host (from an API key). Both carry only an id; the variant tag
    is all that tells them apart.
   */
  datatype Principal = UserPrincipal(id: Uuid) | HostPrincipal(id: Uuid)

  /** The whole entity store. */
  datatype Store = Store(users: UserTable, houses: HouseTable, hosts: HostTable, devices: DeviceTable)

  /**
    What every device service operation preserves: an UNASSOCIATED device
    has neither owner nor host, and an ASSOCIATED device has a host.
    (The house is not part of it: `houseAssoc` sets it in any state.)
   */
  ghost predicate DeviceRowOk(r: DeviceRow) {
    && (r.assocState == Unassociated ==> r.ownerId.None? && r.hostId.None?)
    && (r.assocState == Associated ==> r.hostId.Some?)
  }

  ghost predicate DevicesOk(t: DeviceTable) {
    forall k :: k in t ==> DeviceRowOk(t[k])
  }

  /** What every host service operation preserves: an UNASSOCIATED host has no owner. */
  ghost predicate HostRowOk(r: HostRow) {
    r.assocState == Unassociated ==> r.ownerId.None?
  }

  ghost predicate HostsOk(t: HostTable) {
    forall k :: k in t ==> HostRowOk(t[k])
  }

  /**
    The stronger invariant the request handlers keep when requests run one
    at a time: besides DeviceRowOk, a device that has left UNASSOCIATED has
    an owner. A host that is PENDING has an owner; an ASSOCIATED host may
    not, because a host confirms itself from any state.
   */
  ghost predicate DeviceRowCoherent(r: DeviceRow) {
    && DeviceRowOk(r)
    && (r.assocState != Unassociated ==> r.ownerId.Some?)
  }

  ghost predicate HostRowCoherent(r: HostRow) {
    && HostRowOk(r)
    && (r.assocState == Pending ==> r.ownerId.Some?)
  }

  ghost predicate Coherent(s: Store) {
    && (forall k :: k in s.devices ==> DeviceRowCoherent(s.devices[k]))
    && (forall k :: k in s.hosts ==> HostRowCoherent(s.hosts[k]))
  }
}
