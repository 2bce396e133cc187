/** The two event producers: the computer-vision engine, which turns a frame's
    timestamp into a detection event, and the API gateway, which turns a request
    payload into a system event. */
module Producers {
  import opened Common
  import opened Decimal
  import opened Effects
  import opened Events
  import opened Factories

  const DefaultModelId := "person_detector_v1"

  /** The frame record the video module hands on: which camera took it and when,
      in milliseconds. */
  datatype FrameMeta = FrameMeta(cameraId: string, timestampMs: int)

  class VideoModule {
    const cameraId: string

    constructor (cameraId: string)
      ensures this.cameraId == cameraId
    {
      this.cameraId := cameraId;
    }

    /** `receive_frame`: report the camera the frame comes from and stamp the
        frame with the current time, given here as `nowMs`. */
    method ReceiveFrame(nowMs: int) returns (out: seq<Effect>, frame: FrameMeta)
      ensures out == [FrameReceived(cameraId)]
      ensures frame.cameraId == cameraId && frame.timestampMs == nowMs
    {
      out := [FrameReceived(cameraId)];
      frame := FrameMeta(cameraId, nowMs);
    }
  }

  /** The keyword arguments `detect` passes to its factory for a frame taken at
      `ms` milliseconds. */
  function DetectionArgs(ms: int): EventArgs {
    var eventId := "det_" + IntToString(ms);
    EventArgs(Some(eventId), Some(ms), Some("person_detected"), Some("Zone_A"), Some(2),
              Some("res_" + eventId), None, None, None)
  }

  /** The event `detect` produces for a frame taken at `ms` milliseconds: its id is
      derived from the timestamp, its result id from its id, its model id is the
      engine's, and the type, zone and severity are fixed. */
  function DetectData(modelId: string, ms: int): (d: EventData)
    ensures d.id == "det_" + IntToString(ms)
    ensures d.variant == Detection("res_" + d.id, modelId)
    ensures d.timestamp == ms && d.eventType == "person_detected"
    ensures d.zona == "Zone_A" && d.severity == 2
  {
    var r := DetectionEventData(modelId, DetectionArgs(ms));
    assert forall k :: k in DetectionKeys ==> Present(DetectionArgs(ms), k);
    r.value
  }

  /** Frames taken at different milliseconds get different event ids. */
  lemma DetectIdsDistinct(m1: string, m2: string, ms1: int, ms2: int)
    requires ms1 != ms2
    ensures DetectData(m1, ms1).id != DetectData(m2, ms2).id
  {
    var a, b := DetectData(m1, ms1).id, DetectData(m2, ms2).id;
    if a == b {
      assert a[4..] == IntToString(ms1) && b[4..] == IntToString(ms2);
      IntToStringInjective(ms1, ms2);
    }
  }

  class ComputerVisionEngine {
    const modelId: string
    const eventFactory: DetectionEventFactory

    /** The engine's factory produces events for the engine's own model. */
    ghost predicate Valid() {
      eventFactory.modelId == modelId
    }

    constructor (modelId: string := DefaultModelId)
      ensures this.modelId == modelId && Valid()
    {
      this.modelId := modelId;
      eventFactory := new DetectionEventFactory(modelId);
    }

    /** `detect`: build the detection event through the engine's factory. The
        event starts with the notification strategy. */
    method Detect(ms: int) returns (e: Event)
      requires Valid()
      ensures fresh(e) && e.data == DetectData(modelId, ms) && e.strategy == Notification
    {
      var r := eventFactory.CreateEvent(DetectionArgs(ms));
      assert forall k :: k in DetectionKeys ==> Present(DetectionArgs(ms), k);
      e := r.value;
    }
  }

  /** The parts of a request payload the gateway reads; `None` is an absent key. */
  datatype Payload = Payload(
    eventType: Option<string>,
    zona: Option<string>,
    severity: Option<int>,
    component: Option<string>,
    message: Option<string>)

  /** The event `create_event_from_request` builds from payload `p` when the
      counter has just become `counter`, at time `nowMs`. */
  function RequestEventData(counter: nat, nowMs: int, p: Payload): (r: Result<EventData>)
    ensures r.Ok? <==> p.eventType == Some("system") && p.component.Some? && p.message.Some?
    ensures p.eventType != Some("system") ==> r == Err(ValueError("Unsupported event type"))
    ensures p.eventType == Some("system") && p.component.None? ==> r == Err(KeyError("component"))
    ensures p.eventType == Some("system") && p.component.Some? && p.message.None? ==>
      r == Err(KeyError("message"))
    ensures r.Ok? ==>
      r.value == EventData("sys_" + NatToString(counter), nowMs, "system_failure",
                           p.zona.GetOr("N/A"), p.severity.GetOr(3),
                           System(p.component.value, p.message.value))
  {
    if p.eventType != Some("system") then Err(ValueError("Unsupported event type"))
    else
      var args := SystemRequestArgs(counter, nowMs, p);
      SystemRequestMissing(counter, nowMs, p);
      SystemEventData(args)
  }

  /** The keyword arguments the gateway passes to the system event factory. */
  function SystemRequestArgs(counter: nat, nowMs: int, p: Payload): EventArgs {
    EventArgs(Some("sys_" + NatToString(counter)), Some(nowMs), Some("system_failure"),
              Some(p.zona.GetOr("N/A")), Some(p.severity.GetOr(3)), None, None,
              p.component, p.message)
  }

  /** The gateway always supplies every key but `component` and `message`,
      which it copies from the payload, so a missing one of those two is the
      key reported, `component` first. */
  lemma SystemRequestMissing(counter: nat, nowMs: int, p: Payload)
    ensures FirstMissing(SystemRequestArgs(counter, nowMs, p), SystemKeys) ==
      if p.component.None? then Some(ComponentKey)
      else if p.message.None? then Some(MessageKey)
      else None
  {
    var args := SystemRequestArgs(counter, nowMs, p);
    assert Present(args, SystemKeys[0]) && Present(args, SystemKeys[1]) && Present(args, SystemKeys[2]);
    assert Present(args, SystemKeys[3]) && Present(args, SystemKeys[4]);
    FirstMissingSkipsPresent(args, SystemKeys, 5);
    var tail := SystemKeys[5..];
    assert tail == [ComponentKey, MessageKey];
    assert tail[1..] == [MessageKey];
    assert tail[1..][1..] == [];
  }

  /** Requests handled under different counter values get different event ids, so
      the ids of successive system events never repeat. */
  lemma SystemIdsDistinct(c1: nat, c2: nat, t1: int, t2: int, p1: Payload, p2: Payload)
    requires c1 != c2
    requires RequestEventData(c1, t1, p1).Ok? && RequestEventData(c2, t2, p2).Ok?
    ensures RequestEventData(c1, t1, p1).value.id != RequestEventData(c2, t2, p2).value.id
  {
    var a, b := RequestEventData(c1, t1, p1).value.id, RequestEventData(c2, t2, p2).value.id;
    if a == b {
      assert a[4..] == NatToString(c1) && b[4..] == NatToString(c2);
      NatToStringInjective(c1, c2);
    }
  }

  /** A detection id and a system-event id are never equal. */
  lemma DetectionAndSystemIdsDiffer(modelId: string, ms: int, counter: nat, nowMs: int, p: Payload)
    requires RequestEventData(counter, nowMs, p).Ok?
    ensures DetectData(modelId, ms).id != RequestEventData(counter, nowMs, p).value.id
  {
    assert DetectData(modelId, ms).id[0] == 'd';
    assert RequestEventData(counter, nowMs, p).value.id[0] == 's';
  }

  class APIGateway {
    var eventCounter: nat
    const systemEventFactory: SystemEventFactory

    constructor ()
      ensures eventCounter == 0
    {
      eventCounter := 0;
      systemEventFactory := new SystemEventFactory();
    }

    /** `create_event_from_request`: count the request first, whether or not it is
        accepted, then build a system event through the factory or raise. */
    method CreateEventFromRequest(p: Payload, nowMs: int) returns (r: Result<Event>)
      modifies this
      ensures eventCounter == old(eventCounter) + 1
      ensures r.Ok? <==> RequestEventData(eventCounter, nowMs, p).Ok?
      ensures r.Ok? ==>
        fresh(r.value) && r.value.data == RequestEventData(eventCounter, nowMs, p).value &&
        r.value.strategy == AdminAlert
      ensures r.Err? ==> r.error == RequestEventData(eventCounter, nowMs, p).error
    {
      eventCounter := eventCounter + 1;
      if p.eventType == Some("system") {
        r := systemEventFactory.CreateEvent(SystemRequestArgs(eventCounter, nowMs, p));
      } else {
        r := Err(ValueError("Unsupported event type"));
      }
    }
  }
}
