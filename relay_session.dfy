/** Sessions: the relay service driven by a sequence of requests, one at a
    time, as the stack serialises them. Each request is one of the entry
    points of `RelayProfile`; a session folds their outcomes and collects
    the events they cause, so that properties spanning several calls (how
    often the callback fires, what keeps the stored byte 0 or 1) can be
    stated and proved by induction on the session. */
module RelaySession {
  import opened BleTypes
  import opened RelayProfile

  /** The service's state as seen between requests. */
  datatype Service = Service(relayState: Byte, stateChangeCB: Option<CallbackId>)

  /** One call into the service. The status arguments stand for what the
      foreign stack calls report. */
  datatype Request =
    | RemoteRead(attr: Attribute, offset: Uint16)
    | RemoteWrite(attr: Attribute, payload: seq<Byte>, offset: Uint16, cccStatus: Status)
    | LocalSet(param: Byte, len: Byte, value: Byte, notifyStatus: Status)
    | LocalGet(param: Byte)
    | LocalSetup(cb: Option<CallbackId>)

  /** The state after some requests and the events they caused, in order. */
  datatype Trace = Trace(service: Service, events: seq<Event>)

  /** The attribute of the relay state value, writable without authorization. */
  const STATE_ATTR: Attribute := Attribute(Some(RELAY_STATE_UUID), false)

  function Step(s: Service, q: Request): (t: Trace) {
    match q
    case RemoteRead(_, _) => Trace(s, [])
    case LocalGet(_) => Trace(s, [])
    case RemoteWrite(attr, payload, offset, cccStatus) =>
      var r := WriteAttrOutcome(s.relayState, s.stateChangeCB, attr, payload, offset, cccStatus);
      Trace(s.(relayState := r.relayState), r.events)
    case LocalSet(param, len, value, notifyStatus) =>
      var r := SetParameterOutcome(s.relayState, param, len, value, notifyStatus);
      Trace(s.(relayState := r.relayState), r.events)
    case LocalSetup(cb) => Trace(s.(stateChangeCB := cb), [])
  }

  function Run(s: Service, qs: seq<Request>): (t: Trace)
    decreases |qs|
  {
    if qs == [] then Trace(s, [])
    else
      var first := Step(s, qs[0]);
      var rest := Run(first.service, qs[1..]);
      Trace(rest.service, first.events + rest.events)
  }

  /** Number of state-change callback invocations among `evs`. */
  function CallbackCount(evs: seq<Event>): (n: nat) {
    if evs == [] then 0
    else (if evs[0].StateChangeCallback? then 1 else 0) + CallbackCount(evs[1..])
  }

  /** Number of notification broadcasts among `evs`. */
  function BroadcastCount(evs: seq<Event>): (n: nat) {
    if evs == [] then 0
    else (if evs[0].NotifyBroadcast? then 1 else 0) + BroadcastCount(evs[1..])
  }

  /** Number of remote writes among `qs`. */
  function WriteCount(qs: seq<Request>): (n: nat) {
    if qs == [] then 0
    else (if qs[0].RemoteWrite? then 1 else 0) + WriteCount(qs[1..])
  }

  /** Number of local sets among `qs`. */
  function SetCount(qs: seq<Request>): (n: nat) {
    if qs == [] then 0
    else (if qs[0].LocalSet? then 1 else 0) + SetCount(qs[1..])
  }

  lemma {:induction false} CountsAppend(a: seq<Event>, b: seq<Event>)
    ensures CallbackCount(a + b) == CallbackCount(a) + CallbackCount(b)
    ensures BroadcastCount(a + b) == BroadcastCount(a) + BroadcastCount(b)
  {
    if a == [] {
      assert a + b == b;
    } else {
      assert (a + b)[1..] == a[1..] + b;
      CountsAppend(a[1..], b);
    }
  }

  /** One request causes at most one event: a callback only for a remote
      write, a broadcast only for a local set. */
  lemma StepEvents(s: Service, q: Request)
    ensures |Step(s, q).events| <= 1
    ensures CallbackCount(Step(s, q).events) <= (if q.RemoteWrite? then 1 else 0)
    ensures BroadcastCount(Step(s, q).events) <= (if q.LocalSet? then 1 else 0)
    ensures q.RemoteWrite? ==>
              CallbackCount(Step(s, q).events) == (if Step(s, q).events != [] then 1 else 0)
  {
  }

  /** Every callback invocation is caused by a remote write and every
      broadcast by a local set; in particular the remote write path never
      broadcasts and the local set never calls the callback. */
  lemma {:induction false} EventsAttributed(s: Service, qs: seq<Request>)
    ensures CallbackCount(Run(s, qs).events) <= WriteCount(qs)
    ensures BroadcastCount(Run(s, qs).events) <= SetCount(qs)
    decreases |qs|
  {
    if qs != [] {
      var first := Step(s, qs[0]);
      EventsAttributed(first.service, qs[1..]);
      StepEvents(s, qs[0]);
      CountsAppend(first.events, Run(first.service, qs[1..]).events);
    }
  }

  /** A session whose local sets only store 0 or 1 keeps the stored byte 0
      or 1, the invariant the remote write path alone would keep. */
  lemma {:induction false} NormalisedPreserved(s: Service, qs: seq<Request>)
    requires s.relayState <= 1
    requires forall i :: 0 <= i < |qs| && qs[i].LocalSet? ==> qs[i].value <= 1
    ensures Run(s, qs).service.relayState <= 1
    decreases |qs|
  {
    if qs != [] {
      NormalisedPreserved(Step(s, qs[0]).service, qs[1..]);
    }
  }

  /** Without local sets, with a callback installed throughout and a
      stored byte of 0 or 1, every callback marks a flip of the logical
      state: the callback ran an even number of times exactly when the
      session ends in the state it started in. */
  lemma {:induction false} CallbackParity(s: Service, qs: seq<Request>)
    requires s.relayState <= 1 && s.stateChangeCB.Some?
    requires forall i :: 0 <= i < |qs| ==> !qs[i].LocalSet? && (qs[i].LocalSetup? ==> qs[i].cb.Some?)
    ensures Run(s, qs).service.relayState <= 1
    ensures Run(s, qs).service.stateChangeCB.Some?
    ensures CallbackCount(Run(s, qs).events) % 2 == 0 <==> Run(s, qs).service.relayState == s.relayState
    decreases |qs|
  {
    if qs != [] {
      var first := Step(s, qs[0]);
      var rest := Run(first.service, qs[1..]);
      CallbackParity(first.service, qs[1..]);
      StepEvents(s, qs[0]);
      CountsAppend(first.events, rest.events);
      assert CallbackCount(first.events) == (if first.service.relayState != s.relayState then 1 else 0);
    }
  }

  /** With no callback installed and none installed later, no callback runs. */
  lemma {:induction false} NoCallbackWithoutSetup(s: Service, qs: seq<Request>)
    requires s.stateChangeCB.None?
    requires forall i :: 0 <= i < |qs| ==> qs[i].LocalSetup? ==> qs[i].cb.None?
    ensures CallbackCount(Run(s, qs).events) == 0
    decreases |qs|
  {
    if qs != [] {
      var first := Step(s, qs[0]);
      NoCallbackWithoutSetup(first.service, qs[1..]);
      StepEvents(s, qs[0]);
      CountsAppend(first.events, Run(first.service, qs[1..]).events);
    }
  }

  /** Accepted remote writes to the state attribute whose bytes all have
      logical value `on`. */
  predicate SameLogicalWrites(qs: seq<Request>, on: bool) {
    forall i :: 0 <= i < |qs| ==>
      qs[i].RemoteWrite? && IsStateWrite(qs[i].attr, qs[i].payload, qs[i].offset)
      && (qs[i].payload[0] != 0) == on
  }

  /** Repeating writes of one logical value fires the callback at most once
      in total: once if a callback is installed and the stored byte differed
      from the normalised value, otherwise never. */
  lemma {:induction false} SameLogicalWritesFireAtMostOnce(s: Service, qs: seq<Request>, on: bool)
    requires SameLogicalWrites(qs, on)
    ensures var t := Run(s, qs);
      var v: Byte := if on then 1 else 0;
      && CallbackCount(t.events) == (if qs != [] && s.stateChangeCB.Some? && s.relayState != v then 1 else 0)
      && (qs != [] ==> t.service.relayState == v)
      && t.service.stateChangeCB == s.stateChangeCB
    decreases |qs|
  {
    if qs != [] {
      var first := Step(s, qs[0]);
      var rest := Run(first.service, qs[1..]);
      assert SameLogicalWrites(qs[1..], on) by {
        forall i | 0 <= i < |qs[1..]| ensures qs[1..][i] == qs[i + 1] { }
      }
      SameLogicalWritesFireAtMostOnce(first.service, qs[1..], on);
      StepEvents(s, qs[0]);
      CountsAppend(first.events, rest.events);
    }
  }

  /** Two remote writes of the same logical value from state 0: the first
      stores 1 and calls the callback once, with the old byte still stored;
      the second changes nothing. */
  lemma WriteTwiceScenario()
    ensures Run(Service(0, Some(1)),
                [RemoteWrite(STATE_ATTR, [5], 0, Success), RemoteWrite(STATE_ATTR, [1], 0, Success)])
            == Trace(Service(1, Some(1)), [StateChangeCallback(1, 0)])
  {
    var qs := [RemoteWrite(STATE_ATTR, [5], 0, Success), RemoteWrite(STATE_ATTR, [1], 0, Success)];
    var first := Step(Service(0, Some(1)), qs[0]);
    assert first == Trace(Service(1, Some(1)), [StateChangeCallback(1, 0)]);
    assert qs[1..] == [qs[1]] && qs[1..][1..] == [];
    assert Run(first.service, qs[1..]) == Trace(Service(1, Some(1)), []);
  }

  /** A local set stores the raw byte 5, which a get returns as it is and
      which a later remote write of the logically equal byte 1 still
      counts as a change: the callback runs although the logical state
      stays on. */
  lemma RawSetThenEqualWriteScenario()
    ensures GetParameterReply(SetParameterOutcome(0, RELAY_PARAM_STATE, 1, 5, Success).relayState,
                              RELAY_PARAM_STATE) == GetReply(Success, Some(5))
    ensures Run(Service(0, Some(1)),
                [LocalSet(RELAY_PARAM_STATE, 1, 5, Success), RemoteWrite(STATE_ATTR, [1], 0, Success)])
            == Trace(Service(1, Some(1)), [NotifyBroadcast(5), StateChangeCallback(1, 5)])
  {
    var qs := [LocalSet(RELAY_PARAM_STATE, 1, 5, Success), RemoteWrite(STATE_ATTR, [1], 0, Success)];
    var first := Step(Service(0, Some(1)), qs[0]);
    assert first == Trace(Service(5, Some(1)), [NotifyBroadcast(5)]);
    assert qs[1..] == [qs[1]] && qs[1..][1..] == [];
    assert Run(first.service, qs[1..]) == Trace(Service(1, Some(1)), [StateChangeCallback(1, 5)]);
  }
}
