# SmartServer association core, in Dafny

SmartServer is a Kotlin/Ktor backend. Users own houses. Gateway hosts and
sensor devices are claimed by users through a three-state association
protocol: UNASSOCIATED, then PENDING, then ASSOCIATED. The server stores
this state in four tables (users, houses, hosts, devices). A claim
launches a delayed re-check. The re-check undoes the claim unless it was
confirmed in time.

This project models that core as pure functions over immutable data:

- **Tables** (`tables.dfy`, `schema.dfy`):
  - Each table is a finite map from an abstract id to a row. Each row carries the table's columns and defaults.
  - An SQL `UPDATE … WHERE` becomes a function that returns whether a row matched, plus the new table.
  - A `SELECT` becomes a filter that returns keys in ascending order.
  - `updateFrequency` is the subset type `U32`, so it can never be negative.
  - The device type and the host API key are NOT NULL columns with no default. Inserting a row is therefore modelled as possibly failing.
- **Services** (`device_service.dfy`, `host_service.dfy`, `user_service.dfy`, `house_service.dfy`):
  - These are DeviceServiceImpl, HostServiceImpl, UserServiceImpl and HouseServiceImpl.
  - Every read and every association update sees only enabled rows.
  - Enable/disable match any existing row. For users they match only a non-admin row.
  - No update re-tests the association state.
- **Security** (`security.dfy`):
  - The table that maps an exception to an HTTP status.
  - The API-key provider, which calls host login.
  - The `validate` rule shared by both JWT providers. JWT signature checking is an oracle (`JwtCheck`). UUID parsing is a function parameter.
- **Routing** (`routing.dfy`):
  - Each modelled route is a function from the store, the principal and the decoded body to a `Reply`: a status, the new store, and the re-checks the route launched.
  - In the source, claim, confirm, device reset, host reset and the launched re-check each read the state in one database call and write in another. The model splits each into its read and a `…Commit` write (`Routing.RecheckCommit` for the re-check). A lemma can then place another request between the two.
- **Supervisor** (`supervisor.dfy`):
  - The supervisor model runs each request, and each re-check, as one step. The real server is not sequential: the interleavings that matter are stated with the `…Commit` members in `scenarios.dfy` and `findings.dfy`. The re-checks the routes have launched wait in a FIFO queue. A `Timeout` event runs the oldest one.
  - No clock is modelled.
- **Scenarios** (`scenarios.dfy`): the protocol's behaviour, stated for every store that meets each lemma's requires:
  - claim then confirm;
  - timeout before and after a confirm;
  - overlapping claims;
  - the stale re-check;
  - the partial host cascade.
- **Findings** (`findings.dfy`): five places where the code departs from its evident intent. See "## Findings".

Invariants:

- **Service level** (`DevicesOk`, `HostsOk`):
  - For devices, UNASSOCIATED means no owner and no host, and ASSOCIATED means a host.
  - For hosts, UNASSOCIATED means no owner.
  - Every sequence of service updates keeps this.
- **Request level** (`Coherent`):
  - A device that has left UNASSOCIATED also has an owner.
  - A PENDING host has an owner.
  - Every route and every re-check keeps `Coherent`. So does any run of requests and timeouts (`Supervisor.RunKeepsCoherent`).
  - Under interleaving, `Coherent` can break (`Findings.ConfirmAfterRecheckLosesOwner`).

Where the code and the protocol's evident intent differ, the model follows the code:

- A claim of a disabled device gets 422, not 404, because the route reads the state as null.
- Two overlapping claims can both succeed.
- A re-check from an earlier claim can undo a later claim.
- A host can confirm itself from any state, so an ASSOCIATED host may have no owner.
- A device can be placed in a house while UNASSOCIATED.
- A user token can never reset a device.
- The host-by-house lookup compares the owner column.

The one exception is the house delete statement. As written, its limit of 0 makes it remove nothing, or fail. The model removes the row, so that the rest of the protocol can be stated; the written statement is kept in `Findings`.

## Model

| member | source | states |
|---|---|---|
| Tables.Select | src/main/kotlin/com/github/matteof04/smartserver/service/DeviceServiceImpl.kt:36-46 | A table scan yields the key of every row the WHERE clause accepts and no other key. Each key appears once, in ascending order. |
| DeviceService.Get | src/main/kotlin/com/github/matteof04/smartserver/service/DeviceServiceImpl.kt:32-34 | A device is found exactly when its row exists and is enabled, and the record carries that row's columns. |
| DeviceService.AssocState | src/main/kotlin/com/github/matteof04/smartserver/service/DeviceServiceImpl.kt:58-60 | The state is null exactly for a missing or disabled device. Otherwise it is the row's state. |
| DeviceService.UpdateFrequency | src/main/kotlin/com/github/matteof04/smartserver/service/DeviceServiceImpl.kt:54-56 | The frequency is null exactly for a missing or disabled device. Otherwise it is the row's frequency. |
| DeviceService.AllOwner | src/main/kotlin/com/github/matteof04/smartserver/service/DeviceServiceImpl.kt:36-38 | A record is listed iff its device is enabled and owned by the given user. |
| DeviceService.AllHouse | src/main/kotlin/com/github/matteof04/smartserver/service/DeviceServiceImpl.kt:40-42 | A record is listed iff its device is enabled and placed in the given house. The list is empty iff no enabled device is in that house. |
| DeviceService.AllHost | src/main/kotlin/com/github/matteof04/smartserver/service/DeviceServiceImpl.kt:44-46 | A record is listed iff its device is enabled and bound to the given host. Each device appears once. |
| DeviceService.ChangeUpdateFrequency | src/main/kotlin/com/github/matteof04/smartserver/service/DeviceServiceImpl.kt:48-52 | Matches iff the device is enabled. Changes only that device's frequency. A miss changes nothing. The device invariant is kept. |
| DeviceService.BeginAssoc | src/main/kotlin/com/github/matteof04/smartserver/service/DeviceServiceImpl.kt:62-67 | Matches iff the device is enabled, in any state. Sets PENDING and the owner and nothing else. The invariant is kept. |
| DeviceService.ConfirmAssoc | src/main/kotlin/com/github/matteof04/smartserver/service/DeviceServiceImpl.kt:69-74 | Matches iff the device is enabled, in any state. Sets ASSOCIATED and the host. Owner, house and the other rows are unchanged. |
| DeviceService.HouseAssoc | src/main/kotlin/com/github/matteof04/smartserver/service/DeviceServiceImpl.kt:76-80 | Matches iff the device is enabled, in any state. Changes only the house. |
| DeviceService.ResetAssoc | src/main/kotlin/com/github/matteof04/smartserver/service/DeviceServiceImpl.kt:82-89 | Matches iff the device is enabled. Makes it UNASSOCIATED with owner, house and host null, and changes nothing else. |
| DeviceService.ResetAssocIdempotent | src/main/kotlin/com/github/matteof04/smartserver/service/DeviceServiceImpl.kt:82-89 | Resetting twice gives the same table and the same match result as resetting once. |
| DeviceService.ResetEach | src/main/kotlin/com/github/matteof04/smartserver/plugins/Routing.kt:340 | Resetting a list of devices in order reports, for each entry, whether that device was enabled. Every enabled listed device ends reset. Every other row is unchanged. |
| DeviceService.Register | src/main/kotlin/com/github/matteof04/smartserver/service/DeviceServiceImpl.kt:91-96 | The insert succeeds iff the id is unused and the store supplies the NOT NULL type. The new row is UNASSOCIATED, enabled, at frequency 0, with owner, house and host null. The other rows are untouched. |
| DeviceService.Enable | src/main/kotlin/com/github/matteof04/smartserver/service/DeviceServiceImpl.kt:98-102 | Matches iff the row exists, whatever its flag. Sets only the flag. |
| DeviceService.Disable | src/main/kotlin/com/github/matteof04/smartserver/service/DeviceServiceImpl.kt:104-108 | Matches iff the row exists, whatever its flag. Clears only the flag. |
| DeviceService.DisableEnableRoundTrip | src/main/kotlin/com/github/matteof04/smartserver/service/DeviceServiceImpl.kt:98-108 | Disabling an enabled device and then enabling it restores the table. |
| DeviceService.DisabledIsInvisible | src/main/kotlin/com/github/matteof04/smartserver/service/DeviceServiceImpl.kt:32-89 | For a disabled device, every read is null, every update matches nothing and leaves the table as it was, and no lookup lists it. |
| DeviceService.ApplyAllKeepsOk | src/main/kotlin/com/github/matteof04/smartserver/service/DeviceServiceImpl.kt:62-108 | Any sequence of device service updates, in any order, keeps the device invariant. |
| HostService.Get | src/main/kotlin/com/github/matteof04/smartserver/service/HostServiceImpl.kt:30-32 | A host is found exactly when its row exists and is enabled. The record has no enabled field. |
| HostService.AssocState | src/main/kotlin/com/github/matteof04/smartserver/service/HostServiceImpl.kt:42-44 | The state is null exactly for a missing or disabled host. |
| HostService.AllOwner | src/main/kotlin/com/github/matteof04/smartserver/service/HostServiceImpl.kt:34-36 | A record is listed iff its host is enabled and owned by the given user. |
| HostService.AllHouse | src/main/kotlin/com/github/matteof04/smartserver/service/HostServiceImpl.kt:38-40 | As written: a record is listed iff its host is enabled and its OWNER equals the argument. The list is empty iff no enabled host has that owner. |
| HostService.BeginAssoc | src/main/kotlin/com/github/matteof04/smartserver/service/HostServiceImpl.kt:46-51 | Matches iff the host is enabled, in any state. Sets PENDING and the owner and nothing else. |
| HostService.ConfirmAssoc | src/main/kotlin/com/github/matteof04/smartserver/service/HostServiceImpl.kt:53-57 | Matches iff the host is enabled. Sets only ASSOCIATED, so the owner is whatever it was, possibly null. |
| HostService.HouseAssoc | src/main/kotlin/com/github/matteof04/smartserver/service/HostServiceImpl.kt:59-63 | Matches iff the host is enabled. Changes only the house. |
| HostService.ResetAssoc | src/main/kotlin/com/github/matteof04/smartserver/service/HostServiceImpl.kt:65-71 | Matches iff the host is enabled. Makes it UNASSOCIATED with owner and house null. |
| HostService.ResetAssocIdempotent | src/main/kotlin/com/github/matteof04/smartserver/service/HostServiceImpl.kt:65-71 | Resetting a host twice is the same as resetting it once. |
| HostService.Login | src/main/kotlin/com/github/matteof04/smartserver/service/HostServiceImpl.kt:73-75 | Yields a host principal iff exactly one enabled host holds the key, and then it is that host. Zero or several holders yield null. |
| HostService.Register | src/main/kotlin/com/github/matteof04/smartserver/service/HostServiceImpl.kt:77-82 | The insert succeeds iff the id is unused and the store supplies the NOT NULL API key. The new row is UNASSOCIATED and enabled, with owner and house null. |
| HostService.Enable | src/main/kotlin/com/github/matteof04/smartserver/service/HostServiceImpl.kt:84-88 | Matches iff the row exists. Sets only the flag. |
| HostService.Disable | src/main/kotlin/com/github/matteof04/smartserver/service/HostServiceImpl.kt:90-94 | Matches iff the row exists. Clears only the flag. |
| HostService.DisableEnableRoundTrip | src/main/kotlin/com/github/matteof04/smartserver/service/HostServiceImpl.kt:84-94 | Disabling an enabled host and then enabling it restores the table. |
| HostService.DisabledIsInvisible | src/main/kotlin/com/github/matteof04/smartserver/service/HostServiceImpl.kt:30-75 | For a disabled host, reads are null, updates match nothing, lookups skip it, and its key does not log it in. |
| HostService.ApplyAllKeepsOk | src/main/kotlin/com/github/matteof04/smartserver/service/HostServiceImpl.kt:46-94 | Any sequence of host service updates keeps the invariant that an UNASSOCIATED host has no owner. |
| UserService.Get | src/main/kotlin/com/github/matteof04/smartserver/service/UserServiceImpl.kt:31-33 | A user is found iff its row exists and is enabled, with the row's name, mail, hash and admin flag. |
| UserService.Dto | src/main/kotlin/com/github/matteof04/smartserver/service/UserServiceImpl.kt:35-37 | The DTO is null exactly when the user is. Otherwise it is the user's (id, name, mail). |
| UserService.EditMail | src/main/kotlin/com/github/matteof04/smartserver/service/UserServiceImpl.kt:49-51 | Matches iff the user is enabled. Changes only the mail. A miss changes nothing. |
| UserService.EditPassword | src/main/kotlin/com/github/matteof04/smartserver/service/UserServiceImpl.kt:53-55 | Matches iff the user is enabled. Sets only the hash, to the hash of the new password. |
| UserService.EditMailThenGet | src/main/kotlin/com/github/matteof04/smartserver/service/UserServiceImpl.kt:49-51 | Reading an enabled user back after editMail gives the same user with only the mail replaced. |
| UserService.EditPasswordThenGet | src/main/kotlin/com/github/matteof04/smartserver/service/UserServiceImpl.kt:53-55 | Reading an enabled user back after editPassword gives the same user with only the hash replaced, by the hash of the new password. |
| UserService.EditsOfInvisibleUserStayInvisible | src/main/kotlin/com/github/matteof04/smartserver/service/UserServiceImpl.kt:49-55 | Editing a missing or disabled user leaves it unreadable. |
| UserService.Enable | src/main/kotlin/com/github/matteof04/smartserver/service/UserServiceImpl.kt:61-65 | Matches iff the row exists and is not an admin. Sets only the flag. |
| UserService.Disable | src/main/kotlin/com/github/matteof04/smartserver/service/UserServiceImpl.kt:67-71 | Matches iff the row exists and is not an admin. Clears only the flag. |
| UserService.DisableEnableRoundTrip | src/main/kotlin/com/github/matteof04/smartserver/service/UserServiceImpl.kt:61-71 | Disabling an enabled non-admin user and then enabling it restores the table. |
| UserService.AdminsStayPut | src/main/kotlin/com/github/matteof04/smartserver/service/UserServiceImpl.kt:61-71 | No sequence of enable/disable calls changes an admin's row. |
| HouseService.Get | src/main/kotlin/com/github/matteof04/smartserver/service/HouseServiceImpl.kt:31-33 | A house is found iff its row exists. No enabled flag applies. |
| HouseService.New | src/main/kotlin/com/github/matteof04/smartserver/service/HouseServiceImpl.kt:35-42 | The insert succeeds iff the drawn id is unused. The new house has the given name and is owned by the caller. Other houses are unchanged. |
| HouseService.Update | src/main/kotlin/com/github/matteof04/smartserver/service/HouseServiceImpl.kt:44-48 | Matches iff the id exists. Changes only the name and keeps the stored owner, whatever owner the body gives. |
| HouseService.All | src/main/kotlin/com/github/matteof04/smartserver/service/HouseServiceImpl.kt:50-52 | A house is listed iff it is owned by the given user. |
| HouseService.Delete | src/main/kotlin/com/github/matteof04/smartserver/service/HouseServiceImpl.kt:54-56 | The removal the call evidently intends: it removes exactly that row and leaves the others, and reports true iff the row existed. The statement as written removes nothing; that is `Findings.DeleteLimitZero`. |
| HouseService.NewThenDelete | src/main/kotlin/com/github/matteof04/smartserver/service/HouseServiceImpl.kt:35-56 | Deleting a house just created gives back the table it was added to. |
| HouseService.UpdateThenGet | src/main/kotlin/com/github/matteof04/smartserver/service/HouseServiceImpl.kt:44-48 | Reading a house back after update gives the new name and the stored owner, whatever owner the body named. |
| HouseService.AllAgreesWithGet | src/main/kotlin/com/github/matteof04/smartserver/service/HouseServiceImpl.kt:31-52 | all(owner) lists a house iff house(id) finds that record and its owner is the given one. |
| Security.Code | src/main/kotlin/com/github/matteof04/smartserver/plugins/Security.kt:41-57 | Each status has its own HTTP code, in both directions: 200, 400, 401, 403, 404, 422 and 500. |
| Security.StatusOf | src/main/kotlin/com/github/matteof04/smartserver/plugins/Security.kt:41-57 | Each exception maps to its status, in both directions: 401 for authentication, 403 for authorization, 400 for a malformed body, 500 for an internal error, 404 for not found. |
| Security.StatusOfInjective | src/main/kotlin/com/github/matteof04/smartserver/plugins/Security.kt:41-57 | Distinct exceptions give distinct statuses, so 401 and 403 never merge. |
| Security.ApiKeyAuthenticate | src/main/kotlin/com/github/matteof04/smartserver/plugins/Security.kt:59-66 | A token that is not a UUID yields no principal. Otherwise the principal is exactly what host login yields, which is always the unique enabled holder of the key. |
| Security.JwtValidate | src/main/kotlin/com/github/matteof04/smartserver/plugins/Security.kt:92-96 | Yields `UserPrincipal(id)` iff the uuid claim is present and parses to the id of an enabled user. |
| Security.JwtAuthenticate | src/main/kotlin/com/github/matteof04/smartserver/plugins/Security.kt:83-98 | A rejected token yields no principal. A verified one yields what validate yields. Any principal it yields is a user principal of an enabled user, never a host. |
| Security.ChallengeStatus | src/main/kotlin/com/github/matteof04/smartserver/plugins/Security.kt:97 | A failed JWT authentication answers the status whose code is 401. |
| Routing.AdminGate | src/main/kotlin/com/github/matteof04/smartserver/plugins/Routing.kt:102-106 | Admits exactly enabled admins. A missing, disabled or non-user caller gets the authentication failure, and an enabled non-admin gets the authorization failure. |
| Routing.UserEnable | src/main/kotlin/com/github/matteof04/smartserver/plugins/Routing.kt:101-112 | The admin gate gives 401/403 with nothing written. An admin caller gets OK iff the target exists and is not an admin, and then only that flag is set. Otherwise 404. |
| Routing.UserDisable | src/main/kotlin/com/github/matteof04/smartserver/plugins/Routing.kt:113-124 | As for enable. An admin target is never disabled, and reads as 404. |
| Routing.DeviceChangeUpdateFrequency | src/main/kotlin/com/github/matteof04/smartserver/plugins/Routing.kt:146-152 | The route sits behind the access-token provider (line 128). Only a caller holding a user access token is served: no principal, or a host's API key, gets 401. For that caller: OK iff the device is enabled, and then only its frequency changes. Otherwise 422 with no write. |
| Routing.DeviceBeginCommit | src/main/kotlin/com/github/matteof04/smartserver/plugins/Routing.kt:156-172 | Given the state read earlier: a non-UNASSOCIATED read gives 422. Otherwise the write happens at whatever state the device is now in: OK with one check queued, or 404 if the device has gone. |
| Routing.DeviceBeginAssoc | src/main/kotlin/com/github/matteof04/smartserver/plugins/Routing.kt:153-172 | A user gets OK iff the device is enabled and UNASSOCIATED. The device then becomes PENDING owned by the caller, and exactly one re-check is queued. Anything else is 422 with no write. A non-user gets 401. |
| Routing.DeviceHouseAssoc | src/main/kotlin/com/github/matteof04/smartserver/plugins/Routing.kt:174-180 | The route sits behind the access-token provider (line 128). Only a caller holding a user access token is served: no principal, or a host's API key, gets 401. For that caller: OK iff the device is enabled, in any state. Only the house changes. Otherwise 404. |
| Routing.DeviceRegister | src/main/kotlin/com/github/matteof04/smartserver/plugins/Routing.kt:181-189 | Behind the admin gate, the insert gives OK with a fresh UNASSOCIATED row, or 500 when the store rejects it. |
| Routing.DeviceEnable | src/main/kotlin/com/github/matteof04/smartserver/plugins/Routing.kt:190-201 | Behind the admin gate: OK iff the row exists, setting only its flag. Otherwise 404. |
| Routing.DeviceDisable | src/main/kotlin/com/github/matteof04/smartserver/plugins/Routing.kt:202-213 | Behind the admin gate: OK iff the row exists, clearing only its flag. Otherwise 404. |
| Routing.DeviceConfirmCommit | src/main/kotlin/com/github/matteof04/smartserver/plugins/Routing.kt:229-237 | Given the state read earlier: a non-PENDING read gives 422. Otherwise the device becomes ASSOCIATED and bound to the host, whatever its state now is, or 404 if it has gone. |
| Routing.DeviceConfirmAssoc | src/main/kotlin/com/github/matteof04/smartserver/plugins/Routing.kt:226-238 | A host gets OK iff the device is enabled and PENDING, and the device then becomes ASSOCIATED bound to that host. Anything else is 422 with no write, so a repeated confirm is 422. |
| Routing.DeviceResetCommit | src/main/kotlin/com/github/matteof04/smartserver/plugins/Routing.kt:246-259 | Given what the lookup found and the state read after it: unbound gives 401, and a non-ASSOCIATED read gives 422. Otherwise the reset clears the device in whatever state it now is, or gives 404 if it has gone. `Coherent` is kept for any reads. |
| Routing.DeviceResetAssoc | src/main/kotlin/com/github/matteof04/smartserver/plugins/Routing.kt:241-282 | A host gets 401 unless the enabled device is bound to it, then 422 unless ASSOCIATED, and otherwise the device is reset. Every other caller, including every user, gets 401. |
| Routing.HostRegister | src/main/kotlin/com/github/matteof04/smartserver/plugins/Routing.kt:301-309 | Behind the admin gate, the insert gives OK with a fresh UNASSOCIATED host, or 500. |
| Routing.HostBeginCommit | src/main/kotlin/com/github/matteof04/smartserver/plugins/Routing.kt:313-329 | The write half of the host claim, given the state read earlier, with the same outcomes as the device begin commit. |
| Routing.HostBeginAssoc | src/main/kotlin/com/github/matteof04/smartserver/plugins/Routing.kt:310-330 | A user gets OK iff the host is enabled and UNASSOCIATED. The host then becomes PENDING owned by the caller, with one re-check queued. Otherwise 422 with no write. |
| Routing.HostHouseAssoc | src/main/kotlin/com/github/matteof04/smartserver/plugins/Routing.kt:331-337 | The route sits behind the access-token provider (line 287). Only a caller holding a user access token is served: no principal, or a host's API key, gets 401. For that caller: OK iff the host is enabled, in any state. Only its house changes. Otherwise 404. |
| Routing.HostResetCommit | src/main/kotlin/com/github/matteof04/smartserver/plugins/Routing.kt:340-344 | Every enabled listed device is reset, and then the host. The answer is OK iff the host and every listed device matched. Otherwise 500, and what was reset stays reset. |
| Routing.HostResetAssoc | src/main/kotlin/com/github/matteof04/smartserver/plugins/Routing.kt:338-345 | The route sits behind the access-token provider (line 287). Any caller holding a user access token, with no ownership check. No principal, or a host's API key, gets 401. Every enabled device bound to the host is reset, whatever happens to the host. Run alone, the answer is OK iff the host is enabled, otherwise 500. |
| Routing.HostEnable | src/main/kotlin/com/github/matteof04/smartserver/plugins/Routing.kt:346-357 | Behind the admin gate: OK iff the row exists, setting only its flag. Otherwise 404. |
| Routing.HostDisable | src/main/kotlin/com/github/matteof04/smartserver/plugins/Routing.kt:358-369 | Behind the admin gate: OK iff the row exists, clearing only its flag. Otherwise 404. |
| Routing.HostConfirmAssoc | src/main/kotlin/com/github/matteof04/smartserver/plugins/Routing.kt:377-383 | The calling host becomes ASSOCIATED from any state with its owner untouched. The answer is 404 only when its own row is missing or disabled. |
| Routing.HouseNew | src/main/kotlin/com/github/matteof04/smartserver/plugins/Routing.kt:388-393 | The caller owns the new house. A rejected insert is 500. |
| Routing.HouseUpdate | src/main/kotlin/com/github/matteof04/smartserver/plugins/Routing.kt:394-402 | The route sits behind the access-token provider (line 387). Only a caller holding a user access token is served: no principal, or a host's API key, gets 401. For that caller: renames the house with no ownership check. An unknown id is 500. |
| Routing.HouseDelete | src/main/kotlin/com/github/matteof04/smartserver/plugins/Routing.kt:413-421 | The route sits behind the access-token provider (line 387). Only a caller holding a user access token is served: no principal, or a host's API key, gets 401. For that caller: deletes with the evidently intended removal (the written statement is `Findings.HouseDeleteLimitZero`), and answers OK even if no house row existed, iff no enabled device is placed in the house and no enabled host's owner equals the house id. Otherwise 422 with no write. |
| Routing.RecheckCommit | src/main/kotlin/com/github/matteof04/smartserver/plugins/Routing.kt:164 | Given the state the re-check read: an ASSOCIATED read leaves the store alone. Any other read, null included, clears the named row if it is enabled, whatever its state is by now. `Coherent` is kept for any read. |
| Routing.Recheck | src/main/kotlin/com/github/matteof04/smartserver/plugins/Routing.kt:161-166 | With nothing between its read and its reset, the re-check resets the row iff it is enabled and not ASSOCIATED. An ASSOCIATED, missing or disabled row is untouched. The host re-check at lines 318-323 is the same. |
| Supervisor.Handle | src/main/kotlin/com/github/matteof04/smartserver/plugins/Routing.kt:101-421 | Every modelled route keeps `Coherent` when run alone. Each launches at most one re-check, and only a claim launches one, for the row it claimed. |
| Supervisor.AdminGateRefusals | src/main/kotlin/com/github/matteof04/smartserver/plugins/Routing.kt:101-124 | On every admin-only route, device and host included, a caller that is not an enabled user gets 401 and a non-admin gets 403. Neither writes or launches anything. |
| Supervisor.Step | src/main/kotlin/com/github/matteof04/smartserver/plugins/Routing.kt:161-166 | A request only appends its checks to the queue. A timeout runs the oldest check and drops it, and with nothing queued it changes nothing. Both keep `Coherent`. |
| Supervisor.RunKeepsCoherent | src/main/kotlin/com/github/matteof04/smartserver/plugins/Routing.kt:153-383 | Any interleaving of whole requests and re-checks keeps `Coherent`. |
| Supervisor.RunNeverCancels | src/main/kotlin/com/github/matteof04/smartserver/plugins/Routing.kt:161-166 | No request removes a queued check. |
| Supervisor.UnauthenticatedGetsChallenge | src/main/kotlin/com/github/matteof04/smartserver/plugins/Security.kt:81 | A request without a principal gets the challenge status, 401, on every modelled route, with nothing written or launched. |
| Supervisor.ProviderMismatchGetsChallenge | src/main/kotlin/com/github/matteof04/smartserver/plugins/Security.kt:81-97 | A host's API key on any route behind the access-token provider alone, and a user's access token on a route behind the API-key provider alone, get the challenge, 401, with nothing written or launched. |
| Scenarios.ClaimThenConfirm | src/main/kotlin/com/github/matteof04/smartserver/plugins/Routing.kt:153-238 | Claim and then confirm make an UNASSOCIATED device ASSOCIATED, with the claimer as owner and the confirmer as host. A second confirm gets 422 and writes nothing. |
| Scenarios.TimeoutUndoesUnconfirmed | src/main/kotlin/com/github/matteof04/smartserver/plugins/Routing.kt:161-166 | A re-check that finds the device still PENDING makes it UNASSOCIATED, with owner, house and host cleared, and nothing else changes. |
| Scenarios.TimeoutAfterConfirmIsNoOp | src/main/kotlin/com/github/matteof04/smartserver/plugins/Routing.kt:163-165 | A re-check whose read comes after the confirm's write finds the device ASSOCIATED and changes nothing but the queue. The opposite order is `Findings.RecheckUndoesConfirmedDevice`. |
| Scenarios.OverlappingClaimsBothSucceed | src/main/kotlin/com/github/matteof04/smartserver/plugins/Routing.kt:156-160 | Two claims that both read UNASSOCIATED before either writes both get OK and both queue a check. The second caller ends up as the owner. |
| Scenarios.ClaimStep | src/main/kotlin/com/github/matteof04/smartserver/plugins/Routing.kt:153-172 | As one supervisor step, a user's claim of an enabled UNASSOCIATED device makes it PENDING for that user and queues its check. |
| Scenarios.ConfirmStep | src/main/kotlin/com/github/matteof04/smartserver/plugins/Routing.kt:226-238 | As one supervisor step, a host's confirm of an enabled PENDING device makes it ASSOCIATED with that host and queues nothing. |
| Scenarios.ResetStep | src/main/kotlin/com/github/matteof04/smartserver/plugins/Routing.kt:241-259 | As one supervisor step, the bound host's reset of an enabled ASSOCIATED device makes it UNASSOCIATED and queues nothing. |
| Scenarios.ClaimConfirmResetClaim | src/main/kotlin/com/github/matteof04/smartserver/plugins/Routing.kt:153-283 | Claim, confirm, reset by the bound host and claim again leave the device PENDING for the second claimer, with both claims' checks queued. |
| Scenarios.StaleCheckCutsNewClaimShort | src/main/kotlin/com/github/matteof04/smartserver/plugins/Routing.kt:161-166 | Claim, confirm, reset and claim again. The first claim's check then resets the second claim at once, while the second claim's check is still queued. |
| Scenarios.StaleCascadeReportsFailure | src/main/kotlin/com/github/matteof04/smartserver/plugins/Routing.kt:340-343 | If a listed device was disabled after the lookup, the host reset answers 500, yet the host is reset. |
| Scenarios.DisabledDeviceCannotBeClaimed | src/main/kotlin/com/github/matteof04/smartserver/plugins/Routing.kt:156-171 | Claiming a disabled device gets 422 with no write. |
| Scenarios.UserTokenNeverResetsDevice | src/main/kotlin/com/github/matteof04/smartserver/plugins/Routing.kt:262-281 | Whatever the token, a caller authenticated through a JWT provider gets 401 from device reset, with no write. |
| Scenarios.ForeignHostCannotReset | src/main/kotlin/com/github/matteof04/smartserver/plugins/Routing.kt:246-259 | A host that the device is not bound to gets 401 from device reset. |
| Scenarios.HostConfirmsWithoutOwner | src/main/kotlin/com/github/matteof04/smartserver/plugins/Routing.kt:377-383 | An UNASSOCIATED host with no owner can confirm itself, and becomes ASSOCIATED with no owner. |
| Scenarios.UnassociatedDeviceInHouse | src/main/kotlin/com/github/matteof04/smartserver/plugins/Routing.kt:174-180 | An UNASSOCIATED device can be placed in a house and stays UNASSOCIATED. |
| Findings.PlacedHostDoesNotBlockDelete | src/main/kotlin/com/github/matteof04/smartserver/service/HostServiceImpl.kt:38-40 | As written: a house with an enabled host placed in it is deleted with OK, and the host still points at it. |
| Findings.HostsPlacedIn | src/main/kotlin/com/github/matteof04/smartserver/service/HostServiceImpl.kt:38-40 | Corrected lookup: a record is listed iff its host is enabled and placed in the given house. |
| Findings.HouseDeleteIntended | src/main/kotlin/com/github/matteof04/smartserver/plugins/Routing.kt:413-421 | Corrected delete: OK iff no enabled device and no enabled host is placed in the house. After it, no enabled row points at the removed house. It keeps `Coherent`. |
| Findings.IntendedDeleteIsStricter | src/main/kotlin/com/github/matteof04/smartserver/plugins/Routing.kt:415 | When no host owner's id equals the house id, every delete the corrected guard allows is also allowed, identically, by the written one. |
| Findings.DeleteLimitZero | src/main/kotlin/com/github/matteof04/smartserver/service/HouseServiceImpl.kt:54-56 | As written, with a limit of 0: a dialect that accepts the limit leaves every row as it was and reports false; one that refuses it throws. |
| Findings.HouseDeleteLimitZero | src/main/kotlin/com/github/matteof04/smartserver/plugins/Routing.kt:413-421 | house/delete over the written statement: the route's own guard, then OK or 500 by dialect. The store is never changed. |
| Findings.DeleteLimitZeroKeepsHouse | src/main/kotlin/com/github/matteof04/smartserver/service/HouseServiceImpl.kt:54-56 | For an existing house the guard lets through, the modelled route removes it. The written one keeps it, answering OK iff the dialect accepts the limit. |
| Findings.LimitZeroDiffersOnlyInRemoval | src/main/kotlin/com/github/matteof04/smartserver/plugins/Routing.kt:413-421 | Where the dialect accepts the limit, the written and modelled routes give the same status and differ only in the houses table. |
| Findings.OwnerCannotResetDevice | src/main/kotlin/com/github/matteof04/smartserver/plugins/Routing.kt:262-281 | As written: the owner of an ASSOCIATED device, calling with a user token, gets 401 and nothing changes. |
| Findings.DeviceResetAssocIntended | src/main/kotlin/com/github/matteof04/smartserver/plugins/Routing.kt:262-278 | Corrected reset: a host caller is treated as before. The owner of an ASSOCIATED device resets it, the owner of a device in another state gets 422, and anyone else gets 401. It keeps `Coherent`. |
| Findings.ResetDiffersOnlyForOwners | src/main/kotlin/com/github/matteof04/smartserver/plugins/Routing.kt:241-282 | The corrected and written resets give different replies only to a user who owns the enabled device. |
| Findings.ConfirmAfterRecheckLosesOwner | src/main/kotlin/com/github/matteof04/smartserver/service/DeviceServiceImpl.kt:69-74 | As written: a confirm that read PENDING and writes after the re-check reset the device leaves it ASSOCIATED with no owner, so `Coherent` breaks. |
| Findings.ConfirmIfPending | src/main/kotlin/com/github/matteof04/smartserver/service/DeviceServiceImpl.kt:69-74 | Corrected update: matches iff the device is enabled and still PENDING. Then it sets ASSOCIATED and the host, and otherwise changes nothing. |
| Findings.DeviceConfirmCommitGuarded | src/main/kotlin/com/github/matteof04/smartserver/plugins/Routing.kt:229-237 | Corrected commit: it keeps `Coherent` whatever was read before and whatever ran in between. With nothing in between it answers exactly as the written one. |
| Findings.GuardedConfirmAfterRecheck | src/main/kotlin/com/github/matteof04/smartserver/plugins/Routing.kt:229-237 | In that race, the corrected commit matches nothing, answers 404 and writes nothing. |
| Findings.RecheckUndoesConfirmedDevice | src/main/kotlin/com/github/matteof04/smartserver/plugins/Routing.kt:163-164 | As written: the re-check reads PENDING, a confirm then answers OK and binds the device, and the re-check's reset clears the device anyway. |
| Findings.ResetIfUnconfirmed | src/main/kotlin/com/github/matteof04/smartserver/service/DeviceServiceImpl.kt:82-89 | Corrected device reset for the re-check: matches iff the device is enabled and not ASSOCIATED. It clears only that row. |
| Findings.HostResetIfUnconfirmed | src/main/kotlin/com/github/matteof04/smartserver/service/HostServiceImpl.kt:65-71 | The same guard for hosts: matches iff the host is enabled and not ASSOCIATED. |
| Findings.RecheckCommitGuarded | src/main/kotlin/com/github/matteof04/smartserver/plugins/Routing.kt:163-164 | Corrected re-check reset: a row that is ASSOCIATED when it runs is never touched, whatever the read found. With nothing in between it does exactly what the written one does. It keeps `Coherent`. |
| Findings.GuardedRecheckKeepsConfirm | src/main/kotlin/com/github/matteof04/smartserver/plugins/Routing.kt:163-164 | In that race, the corrected reset leaves the confirmed device ASSOCIATED and bound to its host. |
| Findings.HandleIntended | src/main/kotlin/com/github/matteof04/smartserver/plugins/Routing.kt:101-421 | The dispatcher with the corrected delete and reset keeps `Coherent`, agrees with the written dispatcher on every other call, and never leaves an enabled row placed in a house it deletes. |

## Left out

- JWT creation, signing and verification (the refresh and login routes, the verifier set-up): these are foreign library calls. A token is an oracle result, `Rejected` or `Verified(uuid claim)`.
- UUID parsing (`UUID.fromString`, UUIDFromParameter.kt): a parameter `parseUuid`. Ids are natural numbers, and the random UUID drawn on an insert is the parameter `freshId`.
- Password hashing, user registration and login, and the old-password check of editPassword: these are foreign calls. EditPassword takes the hash function as a parameter.
- The user routes detail, editMail and editPassword:
  - detail maps a null DTO to 404;
  - editMail calls the update, ignores its result and sends no response of its own;
  - editPassword answers 404 for a missing user, 403 when the old password does not verify, 500 when the update matches nothing, and otherwise 200.
  They depend on password verification, which is a foreign call; only the service operations beneath them are modelled.
- The read-only GET routes (device, host and house detail, list*, assocState, updateFrequency): they return the modelled service reads and map null to 404.
- Decoding of request bodies: bodies arrive decoded. A malformed body would raise ContentTransformationException, and only its mapping to 400 is modelled (`Security.StatusOf`).
- The database, Exposed, Hikari and Koin: tables are maps. Foreign-key constraints between the tables are not modelled, and neither are the engine's locking or transactions. The model picks ascending keys as the scan order.
- HouseService.Delete: models the removal by id that the call evidently intends, not the statement as written. `deleteWhere(0, 0)` passes a limit of 0. A dialect that accepts a limit on DELETE then removes no row. One that refuses it throws, and the request ends in 500. Which of the two the deployed SQLite driver does is not modelled, so the written form takes the dialect as a parameter (`Findings.DeleteLimitZero`, listed under Findings).
- Routing.HouseDelete: uses that evident removal. As written, the route answers OK, or 500, and the house stays (`Findings.HouseDeleteLimitZero`).
- Coroutines and time: `launch` and `delay` become the supervisor's FIFO queue. Since every check waits the same fixed window, checks come due in launch order. Requests that interleave inside a single handler appear only through the `…Commit` split, not in `Supervisor`.
- Supervisor.Step: runs a whole request, or a whole re-check, as one step, so a run of events never shows another request landing between a handler's read and its write. Those interleavings are stated separately with the `…Commit` members (`Scenarios.OverlappingClaimsBothSucceed`, `Scenarios.StaleCascadeReportsFailure`, `Findings.ConfirmAfterRecheckLosesOwner`, `Findings.RecheckUndoesConfirmedDevice`). `Supervisor.RunKeepsCoherent` holds only for runs of whole steps.
- Thermo-hygrometer data: plain inserts and selects of float readings stamped with the server clock.
- Serialization DTOs, the service interfaces, Application.kt and the build file: shapes only.

## Findings

| source | as written | input that shows it | evidently intended | confidence | as-written member | corrected member |
|---|---|---|---|---|---|---|
| src/main/kotlin/com/github/matteof04/smartserver/service/HostServiceImpl.kt:38-40 | allHouse selects hosts whose ownerId equals the house id, and the house delete guard relies on it | An enabled host has houseId = H. No enabled device is in H, and no host is owned by a user whose id is H. house/delete(H) answers OK. Once the delete removes rows (see the last row), H goes and the host still points at H | select on houseId, so that a house with a placed host cannot be deleted | not executed | Findings.PlacedHostDoesNotBlockDelete | Findings.HouseDeleteIntended |
| src/main/kotlin/com/github/matteof04/smartserver/plugins/Routing.kt:262-278 | the user branch of device reset tests for the JWT library's principal class, but the JWT providers install a UserPrincipal | User u owns enabled ASSOCIATED device d and calls device/resetAssoc with a valid access token. The answer is 401 and d is unchanged | match the user principal and let the owner of an ASSOCIATED device reset it | not executed | Findings.OwnerCannotResetDevice | Findings.DeviceResetAssocIntended |
| src/main/kotlin/com/github/matteof04/smartserver/service/DeviceServiceImpl.kt:69-74 | confirmAssoc updates any enabled row, after the route's separate PENDING read | Device d is PENDING with owner u. Host h's confirm reads PENDING. The claim's re-check fires and resets d. The confirm's update then writes ASSOCIATED with host h and owner null | update only while the row is still PENDING | not executed | Findings.ConfirmAfterRecheckLosesOwner | Findings.DeviceConfirmCommitGuarded |
| src/main/kotlin/com/github/matteof04/smartserver/plugins/Routing.kt:163-164 | the re-check reads the state and then calls resetAssoc, which clears any enabled row | Device d is PENDING. Its re-check reads PENDING. Host h's confirm then runs and answers OK, making d ASSOCIATED with host h. The re-check's reset then clears d. The host was told it is bound, but the binding is lost | reset only a row that is still not ASSOCIATED when the reset runs | not executed | Findings.RecheckUndoesConfirmedDevice | Findings.RecheckCommitGuarded |
| src/main/kotlin/com/github/matteof04/smartserver/service/HouseServiceImpl.kt:54-56 | delete passes `deleteWhere(0, 0)`, a limit of 0 on the DELETE statement, and the route ignores the result | House H exists, and no enabled device or host blocks the guard. house/delete(H) answers OK with H still present if the dialect accepts the limit; otherwise it throws and answers 500 | delete the row: no limit | not executed | Findings.DeleteLimitZeroKeepsHouse | HouseService.Delete |

The route handlers in `Routing` and the dispatcher `Supervisor.Handle` keep the code as written, except for the house delete statement: they use the corrected `HouseService.Delete`, and the written one sits in `Findings`.
`Findings.HandleIntended` is the dispatcher with the corrected delete and reset in place. `Findings.DeviceConfirmCommitGuarded` is the corrected write half of device confirm. `Findings.RecheckCommitGuarded` is the corrected reset half of the re-check.
