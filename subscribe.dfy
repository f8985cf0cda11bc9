/**
 * The subscription registry of the Vera poll loop: which device answers to
 * which id, which callbacks are attached to which device, and the trace of
 * effects that dispatching one batch of change records produces.
 *
 * Devices are references: the id table is keyed by the integer id, but the
 * callback table is keyed by the device object itself.
 */
module Subscribe {
  import opened Wrappers
  import opened JobStatus

  /** A callback is foreign code; the model only needs to tell them apart. */
  type CallbackId = int

  /** A device object owned by its caller; only its id and name are read here. */
  class Device {
    const veraDeviceId: int
    const name: string

    constructor (veraDeviceId: int, name: string)
      ensures this.veraDeviceId == veraDeviceId && this.name == name
    {
      this.veraDeviceId := veraDeviceId;
      this.name := name;
    }
  }

  /** One change record reported by the controller, fields already integers. */
  datatype Record = Record(id: int, state: Option<int>, comment: Option<string>)

  /** A record without a job status counts as "no job". */
  function StateOf(r: Record): int {
    r.state.GetOr(STATE_NO_JOB)
  }

  function CommentOf(r: Record): string {
    r.comment.GetOr("")
  }

  /** The observable effects of dispatch, in the order they happen. */
  datatype Action =
    | Update(device: Device, record: Record)
    | Call(device: Device, callback: CallbackId)
    | LogPending(device: Device, state: int, comment: string)
    | LogError(device: Device, state: int, comment: string)

  /** The two registry tables, as values. */
  datatype Tables = Tables(devices: map<int, Device>, callbacks: map<Device, seq<CallbackId>>)

  const EMPTY: Tables := Tables(map[], map[])

  /** The callback list of a device; a device never registered has none. */
  function CallbacksOf(callbacks: map<Device, seq<CallbackId>>, device: Device): seq<CallbackId> {
    if device in callbacks then callbacks[device] else []
  }

  /** Every id is mapped to a device carrying that id, which has a callback. */
  ghost predicate WellFormed(t: Tables) {
    forall id :: id in t.devices ==>
      t.devices[id].veraDeviceId == id && CallbacksOf(t.callbacks, t.devices[id]) != []
  }

  /**
   * The tables after registering `callback` for `device`. A missing device
   * changes nothing. Otherwise the id now names this device, the device's
   * callback list grows by `callback` at its end, and every other id and every
   * other device's list stays as it was.
   */
  function Registered(t: Tables, device: Device?, callback: CallbackId): (r: Tables)
    ensures device == null ==> r == t
    ensures device != null ==>
      && r.devices.Keys == t.devices.Keys + {device.veraDeviceId}
      && r.devices[device.veraDeviceId] == device
      && (forall id :: id in t.devices && id != device.veraDeviceId ==> r.devices[id] == t.devices[id])
      && r.callbacks.Keys == t.callbacks.Keys + {device}
      && CallbacksOf(r.callbacks, device) == CallbacksOf(t.callbacks, device) + [callback]
      && (forall d :: d in t.callbacks && d != device ==> r.callbacks[d] == t.callbacks[d])
    ensures WellFormed(t) ==> WellFormed(r)
  {
    if device == null then t
    else Tables(t.devices[device.veraDeviceId := device],
                t.callbacks[device := CallbacksOf(t.callbacks, device) + [callback]])
  }

  /** One call per callback, in list order. */
  function Calls(device: Device, cbs: seq<CallbackId>): (r: seq<Action>)
    ensures |r| == |cbs|
    ensures forall k :: 0 <= k < |cbs| ==> r[k] == Call(device, cbs[k])
  {
    if cbs == [] then [] else [Call(device, cbs[0])] + Calls(device, cbs[1..])
  }

  /**
   * The effects of one change record: nothing for an unknown id; a warning
   * for a pending job; an error for a failed or unrecognised one; otherwise an
   * update of the device the id names, followed by its callbacks.
   */
  function RecordTrace(t: Tables, r: Record): (tr: seq<Action>)
    ensures r.id !in t.devices <==> tr == []
    ensures r.id in t.devices ==>
      && (forall a :: a in tr ==> a.device == t.devices[r.id])
      && (tr[0].Update? <==> Classify(StateOf(r)) == Success)
      && (|tr| == 1 || tr[0].Update?)
  {
    if r.id !in t.devices then []
    else
      var device := t.devices[r.id];
      var state := StateOf(r);
      match Classify(state)
      case Pending => [LogPending(device, state, CommentOf(r))]
      case Error => [LogError(device, state, CommentOf(r))]
      case Success => [Update(device, r)] + Calls(device, CallbacksOf(t.callbacks, device))
  }

  /** The effects of a batch: each record's, in batch order. */
  function EventTrace(t: Tables, batch: seq<Record>): (tr: seq<Action>)
    ensures (forall k :: 0 <= k < |batch| ==> batch[k].id !in t.devices) <==> tr == []
  {
    if batch == [] then [] else RecordTrace(t, batch[0]) + EventTrace(t, batch[1..])
  }

  lemma {:induction false} EventTraceConcat(t: Tables, a: seq<Record>, b: seq<Record>)
    ensures EventTrace(t, a + b) == EventTrace(t, a) + EventTrace(t, b)
  {
    if a == [] {
      assert a + b == b;
    } else {
      assert (a + b)[1..] == a[1..] + b;
      EventTraceConcat(t, a[1..], b);
    }
  }

  lemma EventTraceSnoc(t: Tables, batch: seq<Record>, i: nat)
    requires i < |batch|
    ensures EventTrace(t, batch[..i + 1]) == EventTrace(t, batch[..i]) + RecordTrace(t, batch[i])
  {
    assert batch[..i + 1] == batch[..i] + [batch[i]];
    EventTraceConcat(t, batch[..i], [batch[i]]);
  }

  lemma CallsSnoc(device: Device, cbs: seq<CallbackId>, j: nat)
    requires j < |cbs|
    ensures Calls(device, cbs[..j + 1]) == Calls(device, cbs[..j]) + [Call(device, cbs[j])]
  {
  }

  /** The registry the poll loop dispatches through. */
  class Registry {
    var devices: map<int, Device>
    var callbacks: map<Device, seq<CallbackId>>

    function Snapshot(): Tables
      reads this
    {
      Tables(devices, callbacks)
    }

    ghost predicate Valid()
      reads this
    {
      WellFormed(Snapshot())
    }

    constructor ()
      ensures Snapshot() == EMPTY && Valid()
    {
      devices := map[];
      callbacks := map[];
    }

    /** Subscribes `callback` to `device`; a missing device is refused silently. */
    method Register(device: Device?, callback: CallbackId)
      modifies this
      ensures Snapshot() == Registered(old(Snapshot()), device, callback)
      ensures old(Valid()) ==> Valid()
    {
      if device == null {
        return;
      }
      devices := devices[device.veraDeviceId := device];
      callbacks := callbacks[device := CallbacksOf(callbacks, device) + [callback]];
    }

    /**
     * Dispatches a batch of change records and returns what it did. Neither
     * table is changed: the method has no modifies clause.
     */
    method Event(batch: seq<Record>) returns (trace: seq<Action>)
      ensures trace == EventTrace(Snapshot(), batch)
    {
      trace := [];
      for i := 0 to |batch|
        invariant trace == EventTrace(Snapshot(), batch[..i])
      {
        EventTraceSnoc(Snapshot(), batch, i);
        var effects := Dispatch(batch[i]);
        trace := trace + effects;
      }
      assert batch[..|batch|] == batch;
    }

    /**
     * One iteration of the dispatch loop: each early return is a `continue`
     * of the loop over the batch.
     */
    method Dispatch(record: Record) returns (effects: seq<Action>)
      ensures effects == RecordTrace(Snapshot(), record)
      ensures Valid() && record.id in devices ==> effects[0].device.veraDeviceId == record.id
      ensures Valid() && record.id in devices && Classify(StateOf(record)) == Success ==> |effects| >= 2
    {
      effects := [];
      var state := StateOf(record);
      if record.id !in devices {
        return;
      }
      var device := devices[record.id];
      var verdict := Classify(state);
      if verdict == Pending {
        effects := [LogPending(device, state, CommentOf(record))];
        return;
      }
      if verdict != Success {
        effects := [LogError(device, state, CommentOf(record))];
        return;
      }
      // device.update and the callbacks are foreign code, recorded in order
      effects := [Update(device, record)];
      var cbs := CallbacksOf(callbacks, device);
      for j := 0 to |cbs|
        invariant effects == [Update(device, record)] + Calls(device, cbs[..j])
      {
        CallsSnoc(device, cbs, j);
        effects := effects + [Call(device, cbs[j])];
      }
      assert cbs[..|cbs|] == cbs;
    }
  }
}
