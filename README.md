# Relay state GATT service

A model of the relay service of a CC2640 home-automation firmware
(`app/Profiles/relayservice.c`). The service exposes one byte, `relayState`,
through a GATT characteristic. A remote peer reads it and writes it through the
service's attribute callbacks. The local application sets and gets it through
`Relay_SetParameter` / `Relay_GetParameter`. The application can install a
state-change callback with `Relay_Setup`.

The project has three modules:

- `BleTypes` (`ble_types.dfy`): the stack's integer widths, the status codes the
  service returns, and the two facts about an attribute that the callbacks
  inspect. These are the outcome of UUID extraction and whether writing needs
  authorization.
- `RelayProfile` (`relay_service.dfy`): the service itself. The module statics
  become the fields of class `RelayService`: `relayState`, `stateChangeCB`,
  `charCfgAllocated` (the client-configuration table pointer is non-NULL), and a
  ghost log `events` of the effects the service causes. Each entry point is a
  method that updates those fields step by step, as the C code does. Each of the
  four attribute and parameter entry points is specified by a pure function of
  the old state: `ReadAttrReply`,
  `WriteAttrOutcome`, `SetParameterOutcome`, `GetParameterReply`. The function
  gives the status, the new byte and the events caused. An event is a callback
  invocation, which records the byte stored while the callback runs, or a
  notification broadcast through `GATTServApp_ProcessCharCfg`, or a service
  registration.
- `RelaySession` (`relay_session.dfy`): the stack delivers requests to the
  service one at a time. `Run` folds a sequence of requests through the same
  functions. The lemmas here are about many calls: which request causes which
  event, when the stored byte stays 0 or 1, how often the callback fires.

Out-pointers are outputs of type `Option`. `None` means the code leaves what the
caller put there. This applies to `*pLen` and `pValue[0]` of the read callback
and to `*value` of `Relay_GetParameter`. Foreign stack calls become status
inputs chosen by the caller: `GATTServApp_ProcessCCCWriteReq`,
`GATTServApp_ProcessCharCfg`, `GATTServApp_RegisterService`, and whether
`ICall_malloc` succeeds.

### Where the code differs from the service's design description

The model follows the code in each case.

- The design says the stored value is always 0 or 1, and that a set followed by
  a get returns the normalised byte. But `Relay_SetParameter` stores the raw
  byte (`relayservice.c:216`), and a get returns it unchanged (`SetThenGet`).
  Only the remote write path normalises with `!!`.
- The design says the local set also calls the application's state-change
  callback. The code does not call it (`relayservice.c:214-221`). Only the
  remote write path fires it (`EventsAttributed`).
- The remote write compares the stored byte, not its logical value, with the
  normalised payload (`relayservice.c:359`). "Fire only on a logical change"
  therefore holds only while the stored byte is 0 or 1 (`CallbackParity`,
  `NormalisedPreserved`). After a local set of 5, a remote write of 1 fires the
  callback even though the logical value stays on
  (`RawSetThenEqualWriteScenario`).
- The design has a remote write notify subscribers of the change. But
  `RelayWriteAttrCB` never calls `GATTServApp_ProcessCharCfg`
  (`relayservice.c:354-365`): a remote write fires only the application
  callback and broadcasts nothing (`WriteAttrOutcome`, `WriteTwiceScenario`,
  `EventsAttributed`).
- The design keeps notification-delivery failures away from the caller that
  changed the value. But `Relay_SetParameter` returns the status of
  `GATTServApp_ProcessCharCfg` as its own (`relayservice.c:217`), as
  `SetParameterOutcome` states.
- The callback runs before the new byte is stored (`relayservice.c:361-363`), so
  while it runs `relayState` still holds the old byte. The `stateAtCall` field of
  each callback event records this.

## Model

| member | source | states |
|---|---|---|
| `RelayProfile.Normalise` | app/Profiles/relayservice.c:359-363 | `!!b` is 0 or 1, and it is 1 exactly when `b` is non-zero |
| `RelayProfile.ReadAttrReply` | app/Profiles/relayservice.c:281-308 | a read succeeds iff the offset is 0 and the UUID is the relay state UUID. Then it writes length 1 and the stored byte. `pValue[0]` is written only on success. `pLen` is written only at offset 0, and it is 0 exactly when UUID extraction failed |
| `RelayProfile.ReadErrorPrecedence` | app/Profiles/relayservice.c:288-305 | the offset check comes first and leaves both outputs untouched. An extraction failure then sets length 0 and gives invalid-handle. Any other UUID gives not-found and writes nothing |
| `RelayProfile.WriteAttrOutcome` | app/Profiles/relayservice.c:324-379 | a failed write changes nothing and fires nothing. A write that passes every check on the state attribute succeeds and stores `!!b`. The byte changes only through such a write. The callback fires iff it is installed and the stored byte changes, and it sees the old byte. A client-config write returns the delegated status and leaves the state alone |
| `RelayProfile.WriteErrorPrecedence` | app/Profiles/relayservice.c:330-375 | errors come in this order: invalid handle, insufficient authorization, not-long, invalid value size, attribute not found |
| `RelayProfile.WriteThenRead` | app/Profiles/relayservice.c:281-365 | a read after an accepted 1-byte write of `b` returns length 1 and `!!b` |
| `RelayProfile.WriteSameLogicalValueIsQuiet` | app/Profiles/relayservice.c:358-364 | a second write of the same logical value succeeds, changes nothing and fires nothing |
| `RelayProfile.SetParameterOutcome` | app/Profiles/relayservice.c:203-233 | an unknown parameter gives invalid-parameter and a length other than 1 gives invalid-range, both with nothing changed. Otherwise the raw byte is stored. The call returns the broadcast status if the byte changed and success if it did not. There is exactly one broadcast of the new byte iff it changed, and never a callback |
| `RelayProfile.GetParameterReply` | app/Profiles/relayservice.c:248-264 | it succeeds iff the parameter is the state parameter, and then it writes the stored byte. Otherwise it gives invalid-parameter and writes nothing |
| `RelayProfile.SetThenGet` | app/Profiles/relayservice.c:203-264 | after a set of `v` of length 1, a get returns `v` itself |
| `RelayProfile.RelayService.constructor` | app/Profiles/relayservice.c:68-86 | the statics start as a zero byte, no callback, no configuration table and no events |
| `RelayProfile.RelayService.AddService` | app/Profiles/relayservice.c:172-187 | if allocation fails it returns the memory-allocation error and registers nothing. Otherwise it registers once and returns the registration status |
| `RelayProfile.RelayService.SetParameter` | app/Profiles/relayservice.c:203-233 | status, new byte and logged events are those of `SetParameterOutcome` |
| `RelayProfile.RelayService.GetParameter` | app/Profiles/relayservice.c:248-264 | status and written output are those of `GetParameterReply`, and the state is untouched |
| `RelayProfile.RelayService.ReadAttrCB` | app/Profiles/relayservice.c:281-308 | status and written outputs are those of `ReadAttrReply`, and the state is untouched |
| `RelayProfile.RelayService.WriteAttrCB` | app/Profiles/relayservice.c:324-379 | status, new byte and logged events are those of `WriteAttrOutcome`. The callback and the table are unchanged |
| `RelayProfile.RelayService.Setup` | app/Profiles/relayservice.c:390-393 | the installed callback is replaced by the argument |
| `RelaySession.StepEvents` | app/Profiles/relayservice.c:203-379 | one request causes at most one event. A callback comes only from a remote write and a broadcast only from a local set |
| `RelaySession.EventsAttributed` | app/Profiles/relayservice.c:214-364 | in any session there are no more callbacks than remote writes and no more broadcasts than local sets |
| `RelaySession.NormalisedPreserved` | app/Profiles/relayservice.c:203-365 | a session whose local sets store only 0 or 1 keeps the stored byte 0 or 1 |
| `RelaySession.CallbackParity` | app/Profiles/relayservice.c:358-364 | with no local sets, a callback always installed and a 0/1 start, each callback marks a flip of the state. The count is even iff the session ends where it started |
| `RelaySession.NoCallbackWithoutSetup` | app/Profiles/relayservice.c:361-362 | if no callback is ever installed, none runs |
| `RelaySession.SameLogicalWritesFireAtMostOnce` | app/Profiles/relayservice.c:354-365 | repeated accepted writes of one logical value store its 0/1 form and fire the callback at most once in total. It fires exactly once iff a callback is installed and the stored byte differed |
| `RelaySession.WriteTwiceScenario` | app/Profiles/relayservice.c:354-365 | from 0, writes of 0x05 and then 0x01 store 1 and fire the callback once, while the old byte 0 is still stored |
| `RelaySession.RawSetThenEqualWriteScenario` | app/Profiles/relayservice.c:203-365 | a set of 5 is read back as 5 and broadcast. A later remote write of 1 still fires the callback |

## Left out

- The client characteristic configuration table and the notification fan-out to subscribed connections. These are internal to `GATTServApp_InitCharCfg`, `GATTServApp_ProcessCCCWriteReq` and `GATTServApp_ProcessCharCfg`, which are not part of this model. Their results are status inputs, and a broadcast is one abstract event. `Relay_SetParameter` calls `GATTServApp_ProcessCharCfg` even when the table was never allocated, so the `charCfgAllocated` field records the allocation and guards nothing.
- `ICall_malloc` and `GATTServApp_RegisterService`: whether allocation succeeds and what registration returns are inputs to `AddService`.
- `utilExtractUuid16` and the 128-bit UUID layout (`ha_util.h` is not part of this model). An attribute carries the result of extraction, a 16-bit UUID or a failure.
- The permission bit encoding: `gattPermitAuthorWrite` is a boolean on the attribute. The `DISABLE_AUTHENTICATION` toggle and `NOTIFY_AUTH` only pick constants handed to the stack, so they are not modelled.
- The static attribute table, its user-description string and the property byte. A write to the state UUID is taken to write `relayState`, which is where that table entry points.
- `RELAY_PARAM_STATE` is defined in `relayservice.h`, which is not part of this model. Its value is taken as 0, and no proof depends on it. `GATT_CLIENT_CHAR_CFG_UUID` is the assigned number 0x2902.
- The unused `connHandle`, `method` and `maxLen` parameters. Only the first byte behind `Relay_SetParameter`'s `value` pointer is modelled, because it is the only byte read.
- What the application's callback does: it is not modelled, including any re-entry into the service from inside it. Its invocation is an event.
- Concurrency: the stack serialises every call, which the sequential session model reflects.
