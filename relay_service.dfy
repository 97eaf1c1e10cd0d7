/** The relay-state GATT service: one byte of state (relayState), an
    optional application callback fired on a remote change of the logical
    state, and the read/write callbacks and local accessors around them.

    Each entry point is a method of `RelayService` that updates the
    service's fields step by step as the C code does. The four attribute
    and parameter entry points are each specified by a pure function on the
    old state that says what the call returns, what the new state is, and
    which external effects (`Event`s) it causes. */
module RelayProfile {
  import opened BleTypes

  /** Relay state characteristic UUID (RELAY_STATE_UUID). */
  const RELAY_STATE_UUID: Uint16 := 0x2F01

  /** Parameter ID accepted by Relay_SetParameter / Relay_GetParameter
      (RELAY_PARAM_STATE, defined in relayservice.h). */
  const RELAY_PARAM_STATE: Byte := 0

  /** Identity of an installed relayServiceStateChangeCB_t function pointer. */
  type CallbackId = nat

  /** Effects that leave the service. */
  datatype Event =
      /** The state-change callback `cb` was invoked; `stateAtCall` is what
          relayState held while it ran. */
    | StateChangeCallback(cb: CallbackId, stateAtCall: Byte)
      /** GATTServApp_ProcessCharCfg was asked to notify subscribers of `value`.
          Relay_SetParameter makes this call whether or not the
          client-configuration table was allocated (it passes the pointer
          as it is, possibly NULL), so `charCfgAllocated` guards nothing. */
    | NotifyBroadcast(value: Byte)
      /** GATTServApp_RegisterService was called with the attribute table. */
    | ServiceRegistration

  /** Result of a call that may change relayState. */
  datatype Outcome = Outcome(status: Status, relayState: Byte, events: seq<Event>)

  /** Result of RelayReadAttrCB: the status, and what was written through
      `pLen` and `pValue[0]` (None: left as the caller had it). */
  datatype ReadReply = ReadReply(status: Status, pLen: Option<Uint16>, pValue0: Option<Byte>)

  /** Result of Relay_GetParameter: the status, and what was written
      through `value` (None: left as the caller had it). */
  datatype GetReply = GetReply(status: Status, value: Option<Byte>)

  /** `!!b`: the logical value of a byte as 0 or 1. */
  function Normalise(b: Byte): (r: Byte)
    ensures r == 0 || r == 1
    ensures r == 1 <==> b != 0
  {
    if b != 0 then 1 else 0
  }

  /** A remote write that passes every check on the state attribute. */
  predicate IsStateWrite(attr: Attribute, payload: seq<Byte>, offset: Uint16) {
    attr.uuid16 == Some(RELAY_STATE_UUID) && !attr.authorWrite && offset == 0 && |payload| == 1
  }

  /** A remote write that passes the common checks and names the state attribute. */
  predicate IsStateUuidWrite(attr: Attribute, offset: Uint16) {
    attr.uuid16 == Some(RELAY_STATE_UUID) && !attr.authorWrite && offset == 0
  }

  /** A remote write that passes the common checks and names neither known attribute. */
  predicate IsUnknownUuidWrite(attr: Attribute, offset: Uint16) {
    && attr.uuid16.Some? && !attr.authorWrite && offset == 0
    && attr.uuid16.value != RELAY_STATE_UUID && attr.uuid16.value != GATT_CLIENT_CHAR_CFG_UUID
  }

  /** A remote write that reaches the client-configuration handler. */
  predicate IsCharCfgWrite(attr: Attribute, offset: Uint16) {
    attr.uuid16 == Some(GATT_CLIENT_CHAR_CFG_UUID) && !attr.authorWrite && offset == 0
  }

  /** RelayReadAttrCB on stored byte `relayState`. */
  function ReadAttrReply(relayState: Byte, attr: Attribute, offset: Uint16): (r: ReadReply)
    ensures r.status == Success <==> offset == 0 && attr.uuid16 == Some(RELAY_STATE_UUID)
    ensures r.status == Success ==> r.pLen == Some(1) && r.pValue0 == Some(relayState)
    ensures r.pValue0.Some? ==> r.status == Success
    ensures r.pLen.Some? ==> offset == 0 && (r.pLen == Some(0) <==> attr.uuid16.None?)
  {
    if offset > 0 then
      ReadReply(AttErrAttrNotLong, None, None)
    else if attr.uuid16.None? then
      ReadReply(AttErrInvalidHandle, Some(0), None)
    else if attr.uuid16.value == RELAY_STATE_UUID then
      ReadReply(Success, Some(1), Some(relayState))
    else
      ReadReply(AttErrAttrNotFound, None, None)
  }

  /** RelayWriteAttrCB on stored byte `relayState` with callback `cb`
      installed; `cccStatus` is what GATTServApp_ProcessCCCWriteReq reports. */
  function WriteAttrOutcome(relayState: Byte, cb: Option<CallbackId>, attr: Attribute,
                            payload: seq<Byte>, offset: Uint16, cccStatus: Status): (r: Outcome)
    // a failed write changes nothing and calls nothing
    ensures r.status != Success ==> r.relayState == relayState && r.events == []
    // a write that passes every check stores the normalised byte and succeeds
    ensures IsStateWrite(attr, payload, offset) ==>
              r.status == Success && r.relayState == Normalise(payload[0])
    // relayState changes only through such a write
    ensures r.relayState != relayState ==> IsStateWrite(attr, payload, offset)
    // the callback fires exactly when it is installed and the stored byte changes,
    // and it runs before the new byte is stored
    ensures r.events != [] <==> cb.Some? && r.relayState != relayState
    ensures r.events != [] ==> r.events == [StateChangeCallback(cb.value, relayState)]
    // client-configuration writes are delegated and leave the state alone
    ensures IsCharCfgWrite(attr, offset) ==> r == Outcome(cccStatus, relayState, [])
  {
    if attr.uuid16.None? then
      Outcome(AttErrInvalidHandle, relayState, [])
    else if attr.authorWrite then
      Outcome(AttErrInsufficientAuthor, relayState, [])
    else if offset > 0 then
      Outcome(AttErrAttrNotLong, relayState, [])
    else if attr.uuid16.value == RELAY_STATE_UUID then
      if |payload| != 1 then
        Outcome(AttErrInvalidValueSize, relayState, [])
      else
        var v := Normalise(payload[0]);
        if relayState != v then
          Outcome(Success, v, if cb.Some? then [StateChangeCallback(cb.value, relayState)] else [])
        else
          Outcome(Success, relayState, [])
    else if attr.uuid16.value == GATT_CLIENT_CHAR_CFG_UUID then
      Outcome(cccStatus, relayState, [])
    else
      Outcome(AttErrAttrNotFound, relayState, [])
  }

  /** Relay_SetParameter on stored byte `relayState`, where `value` is the
      byte `value` points at and `notifyStatus` is what
      GATTServApp_ProcessCharCfg reports. */
  function SetParameterOutcome(relayState: Byte, param: Byte, len: Byte, value: Byte,
                               notifyStatus: Status): (r: Outcome)
    ensures param != RELAY_PARAM_STATE ==> r == Outcome(InvalidParameter, relayState, [])
    ensures param == RELAY_PARAM_STATE && len != 1 ==> r == Outcome(BleInvalidRange, relayState, [])
    // an accepted set stores the raw byte, not its normalised form
    ensures param == RELAY_PARAM_STATE && len == 1 ==>
              r.relayState == value && r.status == (if value != relayState then notifyStatus else Success)
    // exactly one broadcast of the new byte when the byte changed, and never the callback
    ensures r.events == if r.relayState != relayState then [NotifyBroadcast(r.relayState)] else []
  {
    if param == RELAY_PARAM_STATE then
      if len == 1 then
        if value != relayState then Outcome(notifyStatus, value, [NotifyBroadcast(value)])
        else Outcome(Success, relayState, [])
      else
        Outcome(BleInvalidRange, relayState, [])
    else
      Outcome(InvalidParameter, relayState, [])
  }

  /** Relay_GetParameter on stored byte `relayState`. */
  function GetParameterReply(relayState: Byte, param: Byte): (r: GetReply)
    ensures r.status == Success <==> param == RELAY_PARAM_STATE
    ensures r.value.Some? <==> r.status == Success
    ensures r.value.Some? ==> r.value.value == relayState
    ensures r.status != Success ==> r.status == InvalidParameter
  {
    if param == RELAY_PARAM_STATE then GetReply(Success, Some(relayState))
    else GetReply(InvalidParameter, None)
  }

  /** The read path checks the offset first, then the UUID; no error writes
      pValue[0], and only an extraction failure writes pLen (as 0). */
  lemma ReadErrorPrecedence(relayState: Byte, attr: Attribute, offset: Uint16)
    ensures offset > 0 ==> ReadAttrReply(relayState, attr, offset) == ReadReply(AttErrAttrNotLong, None, None)
    ensures offset == 0 && attr.uuid16.None? ==>
              ReadAttrReply(relayState, attr, offset) == ReadReply(AttErrInvalidHandle, Some(0), None)
    ensures offset == 0 && attr.uuid16.Some? && attr.uuid16.value != RELAY_STATE_UUID ==>
              ReadAttrReply(relayState, attr, offset) == ReadReply(AttErrAttrNotFound, None, None)
  {
  }

  /** The write path reports the first failing check, in the order UUID
      extraction, write authorization, offset, payload size, UUID match. */
  lemma WriteErrorPrecedence(relayState: Byte, cb: Option<CallbackId>, attr: Attribute,
                             payload: seq<Byte>, offset: Uint16, cccStatus: Status)
    ensures var r := WriteAttrOutcome(relayState, cb, attr, payload, offset, cccStatus);
      && (attr.uuid16.None? ==> r.status == AttErrInvalidHandle)
      && (attr.uuid16.Some? && attr.authorWrite ==> r.status == AttErrInsufficientAuthor)
      && (attr.uuid16.Some? && !attr.authorWrite && offset > 0 ==> r.status == AttErrAttrNotLong)
      && (IsStateUuidWrite(attr, offset) && |payload| != 1 ==> r.status == AttErrInvalidValueSize)
      && (IsUnknownUuidWrite(attr, offset) ==> r.status == AttErrAttrNotFound)
  {
  }

  /** A read after an accepted remote write of `b` returns `!!b`, never `b`. */
  lemma WriteThenRead(relayState: Byte, cb: Option<CallbackId>, attr: Attribute, b: Byte,
                      cccStatus: Status, readAttr: Attribute)
    requires attr.uuid16 == Some(RELAY_STATE_UUID) && !attr.authorWrite
    requires readAttr.uuid16 == Some(RELAY_STATE_UUID)
    ensures var w := WriteAttrOutcome(relayState, cb, attr, [b], 0, cccStatus);
      ReadAttrReply(w.relayState, readAttr, 0) == ReadReply(Success, Some(1), Some(Normalise(b)))
  {
  }

  /** Writing the same logical value again changes nothing and fires nothing. */
  lemma WriteSameLogicalValueIsQuiet(relayState: Byte, cb: Option<CallbackId>, attr: Attribute,
                                     b1: Byte, b2: Byte, s1: Status, s2: Status)
    requires attr.uuid16 == Some(RELAY_STATE_UUID) && !attr.authorWrite
    requires (b1 != 0) == (b2 != 0)
    ensures var w1 := WriteAttrOutcome(relayState, cb, attr, [b1], 0, s1);
      WriteAttrOutcome(w1.relayState, cb, attr, [b2], 0, s2) == Outcome(Success, w1.relayState, [])
  {
  }

  /** A local set of `v` followed by a local get returns `v` itself. */
  lemma SetThenGet(relayState: Byte, v: Byte, notifyStatus: Status)
    ensures var s := SetParameterOutcome(relayState, RELAY_PARAM_STATE, 1, v, notifyStatus);
      GetParameterReply(s.relayState, RELAY_PARAM_STATE) == GetReply(Success, Some(v))
  {
  }

  /** The module statics of relayservice.c. */
  class RelayService {
    /** relayState */
    var relayState: Byte
    /** relayServiceStateChangeCB; None is NULL */
    var stateChangeCB: Option<CallbackId>
    /** relayStateClientCharCfg != NULL */
    var charCfgAllocated: bool
    /** every effect the service has caused, oldest first */
    ghost var events: seq<Event>

    /** Static initialisation: zero state, no callback, no table. */
    constructor ()
      ensures relayState == 0 && stateChangeCB == None && !charCfgAllocated && events == []
    {
      relayState := 0;
      stateChangeCB := None;
      charCfgAllocated := false;
      events := [];
    }

    /** Relay_AddService: `allocSucceeds` says whether ICall_malloc returned
        storage, `registerStatus` is what GATTServApp_RegisterService reports. */
    method AddService(allocSucceeds: bool, registerStatus: Status) returns (status: Status)
      modifies this`charCfgAllocated, this`events
      ensures charCfgAllocated == allocSucceeds
      ensures !allocSucceeds ==> status == BleMemAllocError && events == old(events)
      ensures allocSucceeds ==> status == registerStatus && events == old(events) + [ServiceRegistration]
    {
      charCfgAllocated := allocSucceeds;
      if !charCfgAllocated {
        return BleMemAllocError;
      }
      events := events + [ServiceRegistration];
      status := registerStatus;
    }

    /** Relay_SetParameter. */
    method SetParameter(param: Byte, len: Byte, value: Byte, notifyStatus: Status) returns (status: Status)
      modifies this`relayState, this`events
      ensures var r := SetParameterOutcome(old(relayState), param, len, value, notifyStatus);
        status == r.status && relayState == r.relayState && events == old(events) + r.events
    {
      status := Success;
      if param == RELAY_PARAM_STATE {
        if len == 1 {
          var state := value;
          if state != relayState {
            relayState := state;
            events := events + [NotifyBroadcast(relayState)];
            status := notifyStatus;
          }
        } else {
          status := BleInvalidRange;
        }
      } else {
        status := InvalidParameter;
      }
    }

    /** Relay_GetParameter; `value` is what is written through the out-pointer. */
    method GetParameter(param: Byte) returns (status: Status, value: Option<Byte>)
      ensures GetReply(status, value) == GetParameterReply(relayState, param)
    {
      status, value := Success, None;
      if param == RELAY_PARAM_STATE {
        value := Some(relayState);
      } else {
        status := InvalidParameter;
      }
    }

    /** RelayReadAttrCB; `pLen` and `pValue0` are what is written through
        the out-pointers. */
    method ReadAttrCB(attr: Attribute, offset: Uint16)
      returns (status: Status, pLen: Option<Uint16>, pValue0: Option<Byte>)
      ensures ReadReply(status, pLen, pValue0) == ReadAttrReply(relayState, attr, offset)
    {
      status, pLen, pValue0 := Success, None, None;
      if offset > 0 {
        return AttErrAttrNotLong, pLen, pValue0;
      }
      if attr.uuid16.None? {
        pLen := Some(0);
        return AttErrInvalidHandle, pLen, pValue0;
      }
      var uuid := attr.uuid16.value;
      if uuid == RELAY_STATE_UUID {
        pLen := Some(1);
        pValue0 := Some(relayState);
      } else {
        status := AttErrAttrNotFound;
      }
    }

    /** RelayWriteAttrCB; `cccStatus` is what GATTServApp_ProcessCCCWriteReq
        reports for a client-configuration write. */
    method WriteAttrCB(attr: Attribute, payload: seq<Byte>, offset: Uint16, cccStatus: Status)
      returns (status: Status)
      modifies this`relayState, this`events
      ensures var r := WriteAttrOutcome(old(relayState), stateChangeCB, attr, payload, offset, cccStatus);
        status == r.status && relayState == r.relayState && events == old(events) + r.events
    {
      status := Success;
      if attr.uuid16.None? {
        return AttErrInvalidHandle;
      }
      var uuid := attr.uuid16.value;
      if attr.authorWrite {
        return AttErrInsufficientAuthor;
      }
      if offset > 0 {
        return AttErrAttrNotLong;
      }
      if uuid == RELAY_STATE_UUID {
        if |payload| != 1 {
          status := AttErrInvalidValueSize;
        }
        if status == Success {
          var newValue := Normalise(payload[0]);
          if relayState != newValue {
            if stateChangeCB.Some? {
              events := events + [StateChangeCallback(stateChangeCB.value, relayState)];
            }
            relayState := newValue;
          }
        }
      } else if uuid == GATT_CLIENT_CHAR_CFG_UUID {
        status := cccStatus;
      } else {
        status := AttErrAttrNotFound;
      }
    }

    /** Relay_Setup: installs (or, with None, removes) the callback. */
    method Setup(cb: Option<CallbackId>)
      modifies this`stateChangeCB
      ensures stateChangeCB == cb
    {
      stateChangeCB := cb;
    }
  }
}
