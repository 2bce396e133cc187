# Event routing core of a security-camera demo, in Dafny

This project models the event pipeline of a small Python demo:
- a computer-vision engine and an API gateway produce events through factories;
- an `EventManager` bus delivers each event to its subscribed observers in order;
- the `RuleEngine` observer dispatches on the event type. A person detection gets a device-control strategy, which schedules an "open barrier B1" command on an `ExecutionModule` queue. A system failure runs the event's admin-alert strategy;
- `process_all` drains the queue.

What the Python code prints becomes a trace of effect records (`Effects.Effect`) returned by each operation. The objects the code updates in place are Dafny classes:
- `Bus.EventManager` keeps the observer list;
- `Execution.ExecutionModule` keeps the command queue;
- `Events.Event` holds the attached strategy;
- `Producers.APIGateway` holds the request counter.

Each method is proved against a pure specification function:
- `Bus.PublishSpec` for publishing;
- `Observers.RuleUpdate` for one rule-engine update;
- `Events.StrategyEffects` and `Events.StrategyEnqueues` for running a strategy;
- `Execution.Executions` for draining the queue;
- `Factories.DetectionEventData`, `Factories.SystemEventData`, `Producers.DetectData` and `Producers.RequestEventData` for building events.

A publish changes the queues by exactly the commands the specification lists for each executor, `Execution.CommandsFor(enqueued, x)`.

Modules, one file each:
- `Common`: `Option`, `Result`, and the Python exceptions raised (`KeyError`, `ValueError`, `AttributeError`).
- `Decimal`: Python's `str(n)` for integers, with its inverse.
- `Effects`: commands and effect records.
- `Execution`: the command queue.
- `Events`: event data, strategies and the `Event` class.
- `Factories`: the two event factories over their keyword arguments.
- `Observers`: the rule engine and the storage sink.
- `Bus`: the event manager.
- `Producers`: the video module, the vision engine and the API gateway.
- `Scenario`: the wiring and run of `main.py`.

The error paths and the less obvious behaviour the model follows:
- Unsubscribing an observer that is not subscribed raises Python's `ValueError` from `list.remove` (gof.py:124-125).
- A missing factory argument raises `KeyError` naming the first missing key, in the order the call evaluates them (gof.py:146-153, gof.py:159-167).
- An unsupported request type raises `ValueError("Unsupported event type")` (Components.py:109).
- A system event's admin alert runs only when a rule engine handles the event. `SystemEvent.alertAdmin` is called only from `RuleEngine._handle_system` (Components.py:60-61). `Bus.PublishSystemFailure` proves that the number of alerts equals the number of subscribed rule engines, which is zero when only a storage observer is subscribed.
- `process_all` clears the queue after the loop (Components.py:88). A command that raised would propagate before the clear. No command in the code raises, so the model's drain always executes every command and then clears.
- A person detection handed to the rule engine whose event is not a `DetectionEvent` raises `AttributeError` at `toRuleTrigger`, and a system failure whose event is not a `SystemEvent` raises at `alertAdmin`. Such events can be built, because the factories accept any `event_type`. The model returns these failures, and `Bus.PublishSpec` stops at the first one, as the `publish` loop does.

## Model

| member | source | states |
|---|---|---|
| Decimal.NatToString | Components.py:100 | The decimal rendering of a counter is never empty, is made only of digits, has no leading zero and is not "0" for a positive number. |
| Decimal.ParseNatToString | Components.py:100 | Reading the rendered digits back gives the number again, so the rendering loses nothing. |
| Decimal.NatToStringInjective | Components.py:100 | Distinct counters render to distinct strings. |
| Decimal.IntToStringInjective | Components.py:24 | Distinct millisecond timestamps render to distinct strings, the sign included. |
| Execution.Executions | Components.py:86-87 | Draining prints one execution record per queued command, at the same position as the command. |
| Execution.ExecutionsOnce | Components.py:84-88 | Each command is executed exactly as many times as it was queued. |
| Execution.ExecutionModule.constructor | Components.py:78-79 | A new executor starts with an empty queue. |
| Execution.ExecutionModule.AddCommand | Components.py:81-82 | The command is appended at the tail, and nothing else in the queue changes. |
| Execution.ExecutionModule.ProcessAll | Components.py:84-88 | Prints the header, then executes the queued commands in FIFO order (`Executions` of the old queue), then leaves the queue empty. On an empty queue it only prints the header, so a second drain executes nothing. |
| Execution.CommandsForAppend | Components.py:81-82 | The commands an executor receives from two successive runs of appends are those of the first run followed by those of the second. |
| Execution.CommandsForElsewhere | gof.py:74-76 | An executor that no append targets receives no command. |
| Events.StrategyContract | gof.py:65-83 | Every strategy prints exactly one record and executes no command. Notification prints the event's type and zone. The admin alert names component and message exactly for system events, and otherwise prints the unknown-issue fallback. Only device control schedules, and it schedules exactly its own command on its own executor. |
| Events.Event.constructor | gof.py:27-57 | A system event always starts with the admin-alert strategy. Any other event starts with the given strategy, or with notification when none is given. |
| Events.Event.SetActionStrategy | gof.py:43-44 | The attached strategy becomes the one given, so the last write wins. |
| Events.Event.ExecuteAction | gof.py:40-41 | Runs the strategy attached now. Its output is that strategy's record. A device-control strategy appends its command to its executor's queue. |
| Events.Event.ToRuleTrigger | gof.py:52-53 | A detection event yields the rule-trigger record with its id and model id. Any other event fails with `AttributeError`. |
| Events.Event.AlertAdmin | gof.py:61-62 | A system event runs its attached strategy and the queues change by that strategy's appends. Any other event fails with `AttributeError` and changes nothing. |
| Factories.FirstMissing | gof.py:146-152 | Reports no key exactly when every key was passed. Otherwise it reports a key of the list that was not passed, and every key before it was passed. |
| Factories.FirstMissingSkipsPresent | gof.py:159-166 | Keys passed at the head of the lookup order do not change which key is reported missing. |
| Factories.DetectionEventData | gof.py:145-154 | Succeeds exactly when all six detection keys are passed. A failure is a `KeyError` for the first key, in lookup order, that was not passed. On success each argument is copied into its field, and the model id comes from the factory, never from the arguments. |
| Factories.SystemEventData | gof.py:158-167 | Succeeds exactly when all seven system keys are passed. A failure is a `KeyError` for the first key, in lookup order, that was not passed. On success each argument is copied into its field, including component and message. |
| Factories.DetectionEventFactory.constructor | gof.py:142-143 | The factory keeps the model id it is given. |
| Factories.DetectionEventFactory.CreateEvent | gof.py:141-154 | Builds a fresh event with exactly the `DetectionEventData` fields and the notification strategy, or returns its `KeyError`. |
| Factories.SystemEventFactory.CreateEvent | gof.py:157-167 | Builds a fresh event with exactly the `SystemEventData` fields and the admin-alert strategy, or returns its `KeyError`. |
| Observers.RuleEngine.constructor | Components.py:39-44 | The engine keeps the execution module it is given; its dispatch table is the constant `Observers.Rules`. |
| Observers.RuleEngine.Update | Components.py:46-50 | Prints the receipt and dispatches through the type table. The output, the failure, the event's new strategy and the appends to every queue it can touch are exactly those of `RuleUpdate`. |
| Observers.RuleEngine.HandlePersonEvent | Components.py:52-58 | For a detection: prints the rule trigger, attaches the device-control strategy for barrier B1 on this engine's executor, and appends exactly that command. For any other event: raises at `toRuleTrigger` and changes nothing. |
| Observers.RuleEngine.HandleSystemEvent | Components.py:60-61 | For a system event, runs the attached strategy without replacing it. For any other event, raises at `alertAdmin`. |
| Observers.RuleUpdateContract | Components.py:46-61 | The receipt comes first and no command is executed. An unknown type leaves strategy and queues untouched. A detection gets the barrier strategy and exactly one append on this engine's executor. A system failure runs and keeps its strategy. A handler given the wrong kind of event raises before changing anything. |
| Observers.ObserverStepReach | Components.py:52-58 | After any observer's update, the strategy is the old one or that engine's barrier strategy. Commands go only to the engine's executor or to the old strategy's executor. |
| Observers.StorageService.Update | Components.py:65-66 | The storage sink prints one "persisted" record for the event and changes nothing. |
| Observers.Deliver | gof.py:129 | `observer.update(event)` behaves as that observer's `ObserverStep`, on output, failure, strategy and queues. |
| Bus.FirstIndex | gof.py:125 | The index returned holds the observer, and no earlier entry does. |
| Bus.RemoveFirst | gof.py:124-125 | Removing an observer drops its first occurrence and keeps the rest in order, so the list shortens by one and loses exactly one copy of it. |
| Bus.SubscribeThenUnsubscribe | gof.py:121-125 | Subscribing an absent observer and then unsubscribing it restores the list. If the observer was already present, the older entry is the one removed. |
| Bus.PublishSpecStep | gof.py:128-129 | Publishing to one more observer extends an unfailed walk by exactly that observer's step. |
| Bus.PublishStopsAtFailure | gof.py:127-129 | Once an observer raises, no later observer is notified and nothing more happens. |
| Bus.PublishNotifiesInOrder | gof.py:127-129 | The notified observers are a prefix of the list in list order. Without a failure every entry is notified once, so an empty list notifies nobody. |
| Bus.DuplicateSubscriptionNotifiesTwice | gof.py:121-129 | An observer subscribed twice more is notified twice more per publish. |
| Bus.PublishEnqueuesWithinReach | gof.py:127-129 | Commands land only on the subscribed rule engines' executors or on the executor of the strategy the event carried, and the final strategy stays within that reach. |
| Bus.PublishPersonDetected | Components.py:52-58 | Publishing a person detection never fails. Every rule engine schedules one barrier opening on its executor, in subscription order, and no command is executed while publishing. |
| Bus.PublishSystemFailure | Components.py:60-61 | Publishing a system failure never fails, schedules nothing and keeps the admin-alert strategy. It prints one admin alert per subscribed rule engine. |
| Bus.PublishUnknownType | Components.py:46-50 | Publishing an event whose type has no rule never fails, schedules nothing and leaves the strategy as it was. |
| Bus.EventManager.constructor | gof.py:115-119 | A new manager has no observers. |
| Bus.EventManager.Subscribe | gof.py:121-122 | The observer is appended at the tail, and duplicates are kept. |
| Bus.EventManager.Unsubscribe | gof.py:124-125 | Succeeds exactly when the observer is subscribed, and then the list becomes `RemoveFirst` of the old list. Otherwise it raises `ValueError` and the list is unchanged. |
| Bus.EventManager.Publish | gof.py:127-129 | The output, the notified observers, the failure and the event's final strategy are those of `PublishSpec`. Every executor in reach gets exactly the commands `PublishSpec` lists for it, after its old contents. The observer list is not changed. |
| Producers.DetectData | Components.py:22-35 | A detection's id is "det_" followed by the frame's millisecond timestamp, and its result id is "res_" followed by the id. Its model id is the engine's. Type, zone and severity are "person_detected", "Zone_A" and 2. |
| Producers.DetectIdsDistinct | Components.py:24 | Frames at different milliseconds get different event ids. |
| Producers.VideoModule.constructor | Components.py:4-5 | The module keeps the camera id it is given. |
| Producers.VideoModule.ReceiveFrame | Components.py:7-13 | Prints one record naming the module's camera, and returns a frame record carrying that camera id and the current time. |
| Producers.ComputerVisionEngine.constructor | Components.py:17-20 | The model id defaults to "person_detector_v1", and the engine's factory is created for the engine's own model id. |
| Producers.ComputerVisionEngine.Detect | Components.py:22-35 | Returns a fresh event with exactly the `DetectData` fields and the notification strategy. |
| Producers.RequestEventData | Components.py:96-109 | Succeeds exactly for type "system" with component and message present. Any other type gives `ValueError`. A missing component, then a missing message, gives `KeyError`. On success the id is "sys_" followed by the counter, the type is "system_failure", the zone defaults to "N/A", the severity to 3, and component and message are copied. |
| Producers.SystemRequestMissing | Components.py:99-106 | The gateway always supplies every factory key except component and message, so the key reported missing is component first, then message. |
| Producers.SystemIdsDistinct | Components.py:97-100 | Requests handled under different counter values get different event ids. |
| Producers.DetectionAndSystemIdsDiffer | Components.py:100 | A system-event id never equals a detection id. |
| Producers.APIGateway.constructor | Components.py:92-94 | The request counter starts at zero. |
| Producers.APIGateway.CreateEventFromRequest | Components.py:96-109 | The counter goes up by one on every call, rejected ones included. The result is a fresh admin-alert event with exactly the `RequestEventData` fields for the new counter, or that function's error. |
| Scenario.DemoDetection | main.py:16-24 | With the rule engine and then storage subscribed, a detection prints receipt, rule trigger, scheduling and persistence, in that order, and queues exactly one barrier opening on the rule engine's executor. |
| Scenario.DemoSystemEvent | main.py:31-38 | The demo request, as the gateway's first, becomes event "sys_1". Publishing it prints receipt, one admin alert naming "VideoModule" and "Camera disconnected", and persistence, and schedules nothing. |
| Scenario.PublishDetection | main.py:21-24 | Publishing the frame's detection prints receipt, rule trigger, scheduling and persistence, and appends exactly one barrier opening to the rule engine's queue. |
| Scenario.DetectAndDrain | main.py:20-27 | Publishing the frame's detection and then draining opens barrier B1 exactly once, and leaves the queue empty. |
| Scenario.RequestAndAlert | main.py:31-38 | Publishing the gateway's first request alerts the administrator once and leaves the queue unchanged. |
| Scenario.RunDemo | main.py:5-38 | The whole demo prints exactly ten records in this order: the camera's frame record for "CAM_01", the detection's four, the drain's two (the barrier opens once, only at the drain), and the system event's three. |

## Left out

- `VideoModule.receive_frame` (Components.py:7-13): the raw frame bytes are not modelled. The frame record keeps only the camera id and the timestamp, and `Detect` takes that timestamp.
- `EventSubject` (gof.py:7-19) repeats `EventManager`'s list operations (`append`, `remove`, an in-order loop). `Bus.EventManager` models both.
- The singletons are not modelled: `EventManager.__new__` (gof.py:113-119) and `ExecutionModule.instance` (Components.py:70-76). Each object is built explicitly, as `main.py` does.
- `Event.logEvent` (gof.py:37-38) is never called, and is not modelled.
- `time.time()` and the float conversion `int(timestamp * 1000)` are left out (Components.py:11, Components.py:24, Components.py:101). Timestamps are integer milliseconds passed as parameters, and an event stores that integer instead of float seconds.
- The printed text is left out. Each print is an effect record carrying the same data. The header line `main.py` prints before the system event (main.py:30) is omitted.
- A command that raises inside `process_all` is not modelled. The commands in the code never raise.
- `detect` on a frame record without a "timestamp" key (a `KeyError`) is left out, because frames are represented by their timestamp alone.
- `modelID` is modelled only as a keyword argument that the detection factory ignores.
- The request payload is reduced to the five keys the gateway reads (`Producers.Payload`). Other keys have no effect.
- Events.Event.constructor: a system event built with an explicit strategy is excluded by its precondition. Python rejects that call with a `TypeError`, because gof.py:57 passes `action_strategy` a second time. No caller makes that call, and the `TypeError` itself is not modelled.
