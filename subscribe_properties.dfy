/**
 * What the registry promises about dispatch, stated over the value model of
 * its tables, and two client scenarios that use only the class contracts.
 */
module SubscribeProperties {
  import opened Wrappers
  import opened JobStatus
  import opened Subscribe

  /** A record that makes the registry update a device and fire its callbacks. */
  predicate Dispatches(t: Tables, r: Record) {
    r.id in t.devices && Classify(StateOf(r)) == Success
  }

  /** An action that reaches the device or its subscribers (not a log line). */
  predicate IsDispatch(a: Action) {
    a.Update? || a.Call?
  }

  // ---------------------------------------------------------------- register

  /** Registering several callbacks for one device, one call after another. */
  function RegisterAll(t: Tables, device: Device?, cbs: seq<CallbackId>): Tables
    decreases cbs
  {
    if cbs == [] then t else RegisterAll(Registered(t, device, cbs[0]), device, cbs[1..])
  }

  /** Repeated registration keeps every callback, duplicates included, in call order. */
  lemma {:induction false} RegisterAllInOrder(t: Tables, device: Device, cbs: seq<CallbackId>)
    ensures CallbacksOf(RegisterAll(t, device, cbs).callbacks, device) == CallbacksOf(t.callbacks, device) + cbs
    ensures cbs != [] ==>
      device.veraDeviceId in RegisterAll(t, device, cbs).devices
      && RegisterAll(t, device, cbs).devices[device.veraDeviceId] == device
    decreases cbs
  {
    if cbs != [] {
      RegisterAllInOrder(Registered(t, device, cbs[0]), device, cbs[1..]);
      assert [cbs[0]] + cbs[1..] == cbs;
    }
  }

  /**
   * Callbacks registered one after another on a device all fire, in that
   * order, after those it already had.
   */
  lemma FiredInRegistrationOrder(t: Tables, device: Device, cbs: seq<CallbackId>, r: Record)
    requires cbs != [] && r.id == device.veraDeviceId && Classify(StateOf(r)) == Success
    ensures RecordTrace(RegisterAll(t, device, cbs), r)
         == [Update(device, r)] + Calls(device, CallbacksOf(t.callbacks, device) + cbs)
  {
    RegisterAllInOrder(t, device, cbs);
  }

  /**
   * A second device object registered under an id already in use takes the id
   * over: a successful record for that id updates the new object and fires
   * only the callbacks attached to it. The first object keeps its callbacks;
   * in well-formed tables no id names it any more, so by TraceOnlyRegistered
   * no record can reach them.
   */
  lemma ReRegistrationShadows(t: Tables, first: Device, second: Device, c1: CallbackId, c2: CallbackId, r: Record)
    requires first != second && first.veraDeviceId == second.veraDeviceId == r.id
    requires Classify(StateOf(r)) == Success
    ensures var t2 := Registered(Registered(t, first, c1), second, c2);
      && RecordTrace(t2, r) == [Update(second, r)] + Calls(second, CallbacksOf(t.callbacks, second) + [c2])
      && CallbacksOf(t2.callbacks, first) == CallbacksOf(t.callbacks, first) + [c1]
      && (forall a :: a in RecordTrace(t2, r) ==> a.device == second)
    ensures WellFormed(t) ==> first !in Registered(Registered(t, first, c1), second, c2).devices.Values
  {
    var t2 := Registered(Registered(t, first, c1), second, c2);
    if WellFormed(t) {
      forall id | id in t2.devices
        ensures t2.devices[id] != first
      {
        if id != first.veraDeviceId {
          assert t2.devices[id] == t.devices[id];
        }
      }
    }
  }

  // ---------------------------------------------------------- one record

  /** A pending or failed job leaves exactly one log line and nothing else. */
  lemma QuietRecord(t: Tables, r: Record)
    requires r.id in t.devices && Classify(StateOf(r)) != Success
    ensures |RecordTrace(t, r)| == 1 && !IsDispatch(RecordTrace(t, r)[0])
    ensures Classify(StateOf(r)) == Pending <==> RecordTrace(t, r)[0].LogPending?
    ensures Classify(StateOf(r)) == Error <==> RecordTrace(t, r)[0].LogError?
  {
  }

  /**
   * A successful job updates the device the id names exactly once and then
   * calls each of its callbacks once, in registration order. In well-formed
   * tables that device carries the record's id and has at least one callback.
   */
  lemma SuccessRecord(t: Tables, r: Record)
    requires Dispatches(t, r)
    ensures var device := t.devices[r.id];
      var cbs := CallbacksOf(t.callbacks, device);
      var tr := RecordTrace(t, r);
      && |tr| == |cbs| + 1
      && tr[0] == Update(device, r)
      && (forall k :: 0 <= k < |cbs| ==> tr[k + 1] == Call(device, cbs[k]))
    ensures WellFormed(t) ==> |RecordTrace(t, r)| >= 2 && RecordTrace(t, r)[0].device.veraDeviceId == r.id
  {
  }

  /** A record without a job status is treated as "no job", a success. */
  lemma MissingStateDispatches(t: Tables, r: Record)
    requires r.state == None && r.id in t.devices
    ensures StateOf(r) == STATE_NO_JOB && Dispatches(t, r)
    ensures RecordTrace(t, r)[0] == Update(t.devices[r.id], r)
  {
  }

  // ---------------------------------------------------------------- batches

  /** The records of a batch whose id the registry knows, in batch order. */
  function KnownOnly(t: Tables, batch: seq<Record>): (known: seq<Record>)
    ensures forall r :: r in known <==> r in batch && r.id in t.devices
    ensures |known| <= |batch|
  {
    if batch == [] then []
    else if batch[0].id in t.devices then [batch[0]] + KnownOnly(t, batch[1..])
    else KnownOnly(t, batch[1..])
  }

  /** Filtering keeps batch order: it distributes over concatenation. */
  lemma {:induction false} KnownOnlyConcat(t: Tables, a: seq<Record>, b: seq<Record>)
    ensures KnownOnly(t, a + b) == KnownOnly(t, a) + KnownOnly(t, b)
  {
    if a == [] {
      assert a + b == b;
    } else {
      assert (a + b)[0] == a[0];
      assert (a + b)[1..] == a[1..] + b;
      KnownOnlyConcat(t, a[1..], b);
    }
  }

  /** Records with unknown ids contribute nothing, whatever their state. */
  lemma {:induction false} UnknownIdsIgnored(t: Tables, batch: seq<Record>)
    ensures EventTrace(t, batch) == EventTrace(t, KnownOnly(t, batch))
  {
    if batch != [] {
      UnknownIdsIgnored(t, batch[1..]);
      if batch[0].id in t.devices {
        var rest := KnownOnly(t, batch[1..]);
        assert ([batch[0]] + rest)[0] == batch[0];
        assert ([batch[0]] + rest)[1..] == rest;
      }
    }
  }

  /** Without a successful record for a known id, nothing is updated or called. */
  lemma {:induction false} NoDispatchWithoutSuccess(t: Tables, batch: seq<Record>)
    requires forall k :: 0 <= k < |batch| ==> !Dispatches(t, batch[k])
    ensures forall a :: a in EventTrace(t, batch) ==> !IsDispatch(a)
  {
    if batch != [] {
      NoDispatchWithoutSuccess(t, batch[1..]);
      if batch[0].id in t.devices {
        QuietRecord(t, batch[0]);
      }
    }
  }

  function CountUpdates(trace: seq<Action>): nat {
    if trace == [] then 0 else (if trace[0].Update? then 1 else 0) + CountUpdates(trace[1..])
  }

  function CountDispatching(t: Tables, batch: seq<Record>): nat {
    if batch == [] then 0 else (if Dispatches(t, batch[0]) then 1 else 0) + CountDispatching(t, batch[1..])
  }

  lemma {:induction false} CountUpdatesConcat(a: seq<Action>, b: seq<Action>)
    ensures CountUpdates(a + b) == CountUpdates(a) + CountUpdates(b)
  {
    if a == [] {
      assert a + b == b;
    } else {
      assert (a + b)[1..] == a[1..] + b;
      CountUpdatesConcat(a[1..], b);
    }
  }

  lemma {:induction false} CallsUpdateNothing(device: Device, cbs: seq<CallbackId>)
    ensures CountUpdates(Calls(device, cbs)) == 0
  {
    if cbs != [] {
      var c := Calls(device, cbs);
      assert c[1..] == Calls(device, cbs[1..]);
      CallsUpdateNothing(device, cbs[1..]);
    }
  }

  /** A batch performs one device update per successful record for a known id. */
  lemma {:induction false} OneUpdatePerDispatchingRecord(t: Tables, batch: seq<Record>)
    ensures CountUpdates(EventTrace(t, batch)) == CountDispatching(t, batch)
  {
    if batch != [] {
      var r := batch[0];
      OneUpdatePerDispatchingRecord(t, batch[1..]);
      CountUpdatesConcat(RecordTrace(t, r), EventTrace(t, batch[1..]));
      if Dispatches(t, r) {
        var device := t.devices[r.id];
        var calls := Calls(device, CallbacksOf(t.callbacks, device));
        CountUpdatesConcat([Update(device, r)], calls);
        CallsUpdateNothing(device, CallbacksOf(t.callbacks, device));
      }
    }
  }

  /**
   * Every effect concerns a device the id table maps to, and every callback
   * fired is one registered on the device it is fired for.
   */
  lemma {:induction false} TraceOnlyRegistered(t: Tables, batch: seq<Record>)
    ensures forall a :: a in EventTrace(t, batch) ==>
      a.device in t.devices.Values && (a.Call? ==> a.callback in CallbacksOf(t.callbacks, a.device))
  {
    if batch != [] {
      TraceOnlyRegistered(t, batch[1..]);
      var r := batch[0];
      if r.id in t.devices {
        var device := t.devices[r.id];
        var tr := RecordTrace(t, r);
        forall a | a in tr
          ensures a.device in t.devices.Values && (a.Call? ==> a.callback in CallbacksOf(t.callbacks, a.device))
        {
          var k :| 0 <= k < |tr| && tr[k] == a;
          assert a.device == device;
        }
      }
    }
  }

  // ---------------------------------------------------------------- clients

  /**
   * Lamp 42 with one callback: a "done" record updates it and calls the
   * callback once; an "in progress" record leaves one warning and nothing else.
   */
  method LampScenario(c: CallbackId) returns (lamp: Device, done: seq<Action>, inProgress: seq<Action>)
    ensures lamp.veraDeviceId == 42 && lamp.name == "Lamp"
    ensures done == [Update(lamp, Record(42, Some(STATE_JOB_DONE), Some(""))), Call(lamp, c)]
    ensures inProgress == [LogPending(lamp, STATE_JOB_IN_PROGRESS, "")]
  {
    lamp := new Device(42, "Lamp");
    var registry := new Registry();
    registry.Register(lamp, c);
    var finished := Record(42, Some(STATE_JOB_DONE), Some(""));
    done := registry.Event([finished]);
    assert [finished][1..] == [];
    var busy := Record(42, Some(STATE_JOB_IN_PROGRESS), None);
    inProgress := registry.Event([busy]);
    assert [busy][1..] == [];
  }

  /** Two objects registered under one id: only the second one's callback fires. */
  method ReRegistrationScenario(c1: CallbackId, c2: CallbackId) returns (first: Device, second: Device, trace: seq<Action>)
    ensures first != second && first.veraDeviceId == second.veraDeviceId == 7
    ensures trace == [Update(second, Record(7, None, None)), Call(second, c2)]
  {
    first := new Device(7, "Switch");
    second := new Device(7, "Switch");
    var registry := new Registry();
    registry.Register(first, c1);
    registry.Register(second, c2);
    var r := Record(7, None, None);
    trace := registry.Event([r]);
    assert [r][1..] == [];
  }
}
