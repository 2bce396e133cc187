/** The wiring of the demo program: subscribe a rule engine and a storage sink,
    publish a detection, drain the command queue, then publish a system event
    built from an API request. */
module Scenario {
  import opened Common
  import opened Decimal
  import opened Effects
  import opened Execution
  import opened Events
  import opened Observers
  import opened Bus
  import opened Producers

  /** Publishing to one observer is that observer's update. */
  lemma PublishToOne(a: Observer, d: EventData, s: Strategy)
    ensures var sa := ObserverStep(a, d, s);
      PublishSpec([a], d, s) == Outcome(sa.effects, sa.enqueued, sa.strategy, [a], sa.failure)
  {
    var sa := ObserverStep(a, d, s);
    assert [a][..0] == [];
    assert PublishSpec([], d, s) == Outcome([], [], s, [], None);
    assert [] + sa.effects == sa.effects && [] + sa.enqueued == sa.enqueued && [] + [a] == [a];
  }

  /** Publishing to two observers: the second sees the strategy the first left. */
  lemma PublishToPair(a: Observer, b: Observer, d: EventData, s: Strategy)
    requires ObserverStep(a, d, s).failure.None?
    ensures var sa := ObserverStep(a, d, s);
      var sb := ObserverStep(b, d, sa.strategy);
      PublishSpec([a, b], d, s) ==
        Outcome(sa.effects + sb.effects, sa.enqueued + sb.enqueued, sb.strategy, [a, b], sb.failure)
  {
    PublishToOne(a, d, s);
    assert [a, b][..1] == [a];
  }

  /** The demo's subscribers reach one executor, the rule engine's. */
  lemma DemoReach(engine: RuleEngine, storage: StorageService)
    ensures ExecutorsOf([RuleObserver(engine), StorageObserver(storage)]) == {engine.executionModule}
  {
    EngineExecutorInReach([RuleObserver(engine), StorageObserver(storage)], 0);
  }

  /** The demo's detection reaches the rule engine, then the storage sink; the
      barrier command lands on the rule engine's executor. */
  lemma DemoDetection(engine: RuleEngine, storage: StorageService, ms: int)
    ensures var d := DetectData(DefaultModelId, ms);
      var r := PublishSpec([RuleObserver(engine), StorageObserver(storage)], d, Notification);
      r.effects == [RuleEngineReceived(d.id), RuleTriggered(d.id, DefaultModelId),
                    SchedulingAction("Zone_A"), Persisted(d.id)] &&
      CommandsFor(r.enqueued, engine.executionModule) == [OpenBarrier(BarrierId)]
  {
    var d := DetectData(DefaultModelId, ms);
    PublishToPair(RuleObserver(engine), StorageObserver(storage), d, Notification);
    var scheduled := [Enqueue(engine.executionModule, OpenBarrier(BarrierId))];
    assert scheduled[..0] == [];
    assert scheduled + [] == scheduled;
  }

  /** The request the demo sends to the gateway. */
  const DemoRequest := Payload(Some("system"), Some("Perimeter"), Some(4),
                               Some("VideoModule"), Some("Camera disconnected"))

  /** As the gateway's first request, the demo request becomes event `sys_1`, and
      publishing it alerts the administrator once and schedules nothing. */
  lemma DemoSystemEvent(engine: RuleEngine, storage: StorageService, nowMs: int)
    ensures RequestEventData(1, nowMs, DemoRequest).Ok?
    ensures var d := RequestEventData(1, nowMs, DemoRequest).value;
      var r := PublishSpec([RuleObserver(engine), StorageObserver(storage)], d, AdminAlert);
      r.effects == [RuleEngineReceived("sys_1"), AdminAlerted("VideoModule", "Camera disconnected"),
                    Persisted("sys_1")] &&
      CommandsFor(r.enqueued, engine.executionModule) == []
  {
    assert NatToString(1) == "1";
    var r := RequestEventData(1, nowMs, DemoRequest);
    assert r.Ok?;
    assert "sys_" + NatToString(1) == "sys_1";
    assert r.value.id == "sys_1";
    assert r.value.variant == System("VideoModule", "Camera disconnected");
    assert RequestEventData(1, nowMs, DemoRequest) ==
      Ok(EventData("sys_1", nowMs, SystemFailure, "Perimeter", 4, System("VideoModule", "Camera disconnected")));
    var d := RequestEventData(1, nowMs, DemoRequest).value;
    PublishToPair(RuleObserver(engine), StorageObserver(storage), d, AdminAlert);
  }

  /** Detect a person in a frame and publish the detection: the rule engine and
      the storage sink report it, and one barrier opening is queued. */
  method PublishDetection(eventManager: EventManager, cvEngine: ComputerVisionEngine,
                          ruleEngine: RuleEngine, storage: StorageService, frameMs: int)
    returns (out: seq<Effect>)
    requires cvEngine.Valid() && cvEngine.modelId == DefaultModelId
    requires eventManager.observers == [RuleObserver(ruleEngine), StorageObserver(storage)]
    modifies ruleEngine.executionModule
    ensures var id := "det_" + IntToString(frameMs);
      out == [RuleEngineReceived(id), RuleTriggered(id, DefaultModelId), SchedulingAction("Zone_A"),
              Persisted(id)]
    ensures ruleEngine.executionModule.queue ==
      old(ruleEngine.executionModule.queue) + [OpenBarrier(BarrierId)]
  {
    DemoReach(ruleEngine, storage);
    var detection := cvEngine.Detect(frameMs);
    DemoDetection(ruleEngine, storage, frameMs);
    var published, _, _ := eventManager.Publish(detection);
    out := published;
  }

  /** The first half of the demo: publish the frame's detection, then drain the
      executor's queue, which opens the barrier once. */
  method DetectAndDrain(eventManager: EventManager, cvEngine: ComputerVisionEngine,
                        ruleEngine: RuleEngine, storage: StorageService, frameMs: int)
    returns (out: seq<Effect>)
    requires cvEngine.Valid() && cvEngine.modelId == DefaultModelId
    requires eventManager.observers == [RuleObserver(ruleEngine), StorageObserver(storage)]
    requires ruleEngine.executionModule.queue == []
    modifies ruleEngine.executionModule
    ensures var id := "det_" + IntToString(frameMs);
      out == [RuleEngineReceived(id), RuleTriggered(id, DefaultModelId), SchedulingAction("Zone_A"),
              Persisted(id), ProcessingQueue, Executed(OpenBarrier(BarrierId))]
    ensures ruleEngine.executionModule.queue == []
  {
    var published := PublishDetection(eventManager, cvEngine, ruleEngine, storage, frameMs);
    var processed := ruleEngine.executionModule.ProcessAll();
    assert processed == [ProcessingQueue, Executed(OpenBarrier(BarrierId))];
    out := published + processed;
  }

  /** The second half of the demo: the gateway's first request becomes a system
      event, and publishing it alerts the administrator and schedules nothing. */
  method RequestAndAlert(eventManager: EventManager, api: APIGateway,
                         ruleEngine: RuleEngine, storage: StorageService, requestMs: int)
    returns (out: seq<Effect>)
    requires api.eventCounter == 0
    requires eventManager.observers == [RuleObserver(ruleEngine), StorageObserver(storage)]
    modifies api, ruleEngine.executionModule
    ensures out == [RuleEngineReceived("sys_1"), AdminAlerted("VideoModule", "Camera disconnected"),
                    Persisted("sys_1")]
    ensures ruleEngine.executionModule.queue == old(ruleEngine.executionModule.queue)
  {
    DemoReach(ruleEngine, storage);
    var created := api.CreateEventFromRequest(DemoRequest, requestMs);
    DemoSystemEvent(ruleEngine, storage, requestMs);
    var systemEvent := created.value;
    var alerted, _, _ := eventManager.Publish(systemEvent);
    out := alerted;
  }

  /** The records the demo prints, given the frame's and the request's timestamps:
      the camera reports the frame first;
      the barrier is scheduled while publishing and opened exactly once, when the
      queue is drained, and the system event raises one admin alert. */
  method RunDemo(frameMs: int, requestMs: int) returns (trace: seq<Effect>)
    ensures var id := "det_" + IntToString(frameMs);
      trace == [FrameReceived("CAM_01"),
                RuleEngineReceived(id), RuleTriggered(id, DefaultModelId), SchedulingAction("Zone_A"),
                Persisted(id),
                ProcessingQueue, Executed(OpenBarrier(BarrierId)),
                RuleEngineReceived("sys_1"), AdminAlerted("VideoModule", "Camera disconnected"),
                Persisted("sys_1")]
  {
    var video := new VideoModule("CAM_01");
    var cvEngine := new ComputerVisionEngine();
    var executor := new ExecutionModule();
    var ruleEngine := new RuleEngine(executor);
    var storage := new StorageService();
    var api := new APIGateway();

    var eventManager := new EventManager();
    eventManager.Subscribe(RuleObserver(ruleEngine));
    eventManager.Subscribe(StorageObserver(storage));

    var received, frameMeta := video.ReceiveFrame(frameMs);
    var first := DetectAndDrain(eventManager, cvEngine, ruleEngine, storage, frameMeta.timestampMs);
    var second := RequestAndAlert(eventManager, api, ruleEngine, storage, requestMs);
    trace := received + first + second;
  }
}
