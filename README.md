# pyvera subscription registry, modelled in Dafny

pyvera polls a Vera home-automation controller for devices whose state has
changed and notifies subscribers. This project models the part of
`pyvera/subscribe.py` that decides who is notified: the `SubscriptionRegistry`
tables filled by `register`, and the dispatch rule of `_event`, which sorts
each change record's Luup job-status code into pending, success or error and,
on success, updates the device and fires its callbacks in registration order.

Layout:

- `wrappers.dfy` — `Option`, for the optional `state` and `comment` fields.
- `job_status.dfy` — module `JobStatus`: the Luup job-status constants and `Classify`.
- `subscribe.dfy` — module `Subscribe`: devices (a class, so that identity is
  reference identity as in Python), change records, the trace of effects
  (`Update`, `Call`, and the two log lines `LogPending`/`LogError`), the value
  model of the two tables (`Tables`, `Registered`, `RecordTrace`,
  `EventTrace`) and the `Registry` class, whose `Register` and `Event`
  methods are proved against that value model.
- `subscribe_properties.dfy` — module `SubscribeProperties`: the dispatch
  properties as lemmas, and two client methods that use only the class contracts.

The id table is keyed by `vera_device_id`, the callback table by the device
object. The model keeps that: registering a second object under an id in use
makes the id name the new object, and its callbacks alone fire from then on
(`ReRegistrationShadows`, `ReRegistrationScenario`).

Three accessors are plain definitions: `StateOf` (a missing state reads as
`STATE_NO_JOB`, pyvera/subscribe.py:47), `CommentOf` (a missing comment reads
as `""`, lines 60 and 65) and `CallbacksOf` (a device absent from the callback
table has no callbacks, the `defaultdict(list)` default at line 31 and the
`.get(device, ())` default at line 68). Their defaults are stated by the
contracts of `MissingStateDispatches` (line 47) and of `Registered`, whose
appended list is "the old list, empty if absent" (line 31).

The body of the `_event` loop is the method `Dispatch`, whose early returns
are the loop's `continue`s; `Event` is the loop over the batch.
Neither has a `modifies` clause, so Dafny checks that they change neither
table. The effects of `device.update` and of the callbacks are foreign code;
the model records them as trace entries in the order they happen.

## Model

| member | source | states |
|---|---|---|
| JobStatus.Classify | pyvera/subscribe.py:12-20 | codes 0, 1, 5, 6, 7 are exactly the pending class, -1 and 4 exactly the success class, every other integer the error class; the three classes partition the integers |
| Subscribe.Registered | pyvera/subscribe.py:35-42 | a null device leaves both tables as they were; otherwise the id maps to the device, the device's callback list is the old one (empty if absent) with the callback appended, every other id and every other device's list is unchanged, and well-formed tables stay well-formed |
| Subscribe.Registry.constructor | pyvera/subscribe.py:29-31 | a new registry has two empty tables |
| Subscribe.Registry.Register | pyvera/subscribe.py:35-42 | the tables after the call are `Registered` of the tables before it; the well-formedness invariant is kept |
| Subscribe.RecordTrace | pyvera/subscribe.py:46-69 | a record has no effect exactly when its id is unregistered; otherwise every effect concerns the device its id names, the first effect is an update exactly when the code is a success, and a non-success record has exactly one effect |
| Subscribe.EventTrace | pyvera/subscribe.py:44-69 | a batch has no effect at all exactly when none of its records carries a registered id |
| Subscribe.Calls | pyvera/subscribe.py:68-69 | one `Call(device, cb)` per callback, position for position in list order |
| Subscribe.Registry.Event | pyvera/subscribe.py:44-69 | the loop's trace equals `EventTrace` of the current tables and the batch; the tables are not modified |
| Subscribe.Registry.Dispatch | pyvera/subscribe.py:46-69 | the effects of one loop iteration equal `RecordTrace` of the current tables and the record, including the inner loop over the device's callbacks; the tables are not modified; under the registry invariant the device found carries the record's id, and a success fires at least one callback |
| Subscribe.EventTraceConcat | pyvera/subscribe.py:45 | the trace of a concatenated batch is the concatenation of the traces of its parts, so a batch's trace is its records' traces in batch order |
| SubscribeProperties.UnknownIdsIgnored | pyvera/subscribe.py:48-50 | dropping every record whose id is not registered leaves the trace unchanged, whatever the records' states |
| SubscribeProperties.KnownOnly | pyvera/subscribe.py:48-50 | a record is in the filtered batch exactly when it is in the batch and its id is registered; the filtered batch is no longer than the batch |
| SubscribeProperties.KnownOnlyConcat | pyvera/subscribe.py:45-50 | the filter distributes over concatenation, so it keeps batch order |
| SubscribeProperties.QuietRecord | pyvera/subscribe.py:51-66 | a registered record with a pending or error code yields exactly one log line, a warning for pending and an error otherwise, and no update or callback |
| SubscribeProperties.SuccessRecord | pyvera/subscribe.py:67-69 | a registered record with a success code yields one `Update` of the device its id names, then one `Call` per callback of that device in registration order, and nothing else; in well-formed tables that device carries the record's id and at least one callback fires |
| SubscribeProperties.MissingStateDispatches | pyvera/subscribe.py:47 | a record without a state is read as "no job" and dispatched |
| SubscribeProperties.NoDispatchWithoutSuccess | pyvera/subscribe.py:48-66 | a batch with no successful record for a registered id causes no update and no callback |
| SubscribeProperties.OneUpdatePerDispatchingRecord | pyvera/subscribe.py:45-69 | the number of updates in a batch's trace equals the number of its successful records for registered ids |
| SubscribeProperties.TraceOnlyRegistered | pyvera/subscribe.py:48-69 | every effect concerns a device present in the id table, and every callback fired is registered on the device it is fired for |
| SubscribeProperties.RegisterAllInOrder | pyvera/subscribe.py:41-42 | registering callbacks one after another appends them all, duplicates kept, in call order, and leaves the id naming the device |
| SubscribeProperties.FiredInRegistrationOrder | pyvera/subscribe.py:42-69 | callbacks registered one after another on a device all fire for one successful record, after the callbacks it already had, in registration order |
| SubscribeProperties.ReRegistrationShadows | pyvera/subscribe.py:41-42 | after a second object is registered under the same id, a successful record updates only the second object and fires only its callbacks; the first object's callbacks are kept; in well-formed tables no id names the first object any more, so (by `TraceOnlyRegistered`) no record reaches it |
| SubscribeProperties.LampScenario | pyvera/subscribe.py:35-69 | device 42 with one callback: a "done" record gives one update then one call; an "in progress" record gives one warning and nothing else |
| SubscribeProperties.ReRegistrationScenario | pyvera/subscribe.py:41-69 | two objects under one id, one callback each: a record with no state fires only the second object's callback |

## Left out

- `start`, `stop`, `join` and the `_exiting` and `_poll_thread` fields (pyvera/subscribe.py:32-33, 71-81): thread lifecycle and a flag shared between threads, i.e. concurrency.
- `_run_poll_server` (pyvera/subscribe.py:83-106): HTTP calls through the controller, the fixed sleeps and the retry after a transport error; I/O and timing. `SUBSCRIPTION_RETRY` belongs to it.
- The `int(...)` coercion of `id` and `state` (pyvera/subscribe.py:47-48): record fields are integers already, so the exception a malformed string would raise is not modelled.
- Logging in `register` (pyvera/subscribe.py:37, 40): no effect on the tables. The log lines of `_event` are kept as trace entries with device, state and comment (default `""`): `LogPending` is the warning and `LogError` the error log line; the message text is not modelled.
- `Subscribe.Registry.Register`: `if not device` is modelled as "the device is null". A device object that Python would treat as false for some other reason is not modelled; pyvera's device class is not part of this model.
- Dictionary keys on devices are modelled by reference identity, which is what Python uses when the device class does not define its own equality and hashing.
- What `device.update` and the callbacks do: foreign code, recorded only as `Update` and `Call` entries. A callback that registers more callbacks while the batch is dispatched is not modelled.
- Subscribe.Registry.Event: assumes `device.update` and every callback return normally. In the source (pyvera/subscribe.py:67-69, no `try`) an exception from either stops `_event` there, so the remaining callbacks and records are not dispatched; a `RequestException` is then caught by the poll loop at line 101, which retries with the cursor already advanced, and any other exception ends the poll thread. The model always returns the whole `EventTrace`.
- `Record` keeps only the `id`, `state` and `comment` keys of a change record. The rest of the raw dictionary, which `device.update` reads at line 67, is not modelled; `Update` carries only these three fields.
