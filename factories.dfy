/** The two event factories: each copies a fixed set of required keyword
    arguments into the fields of its event kind and fails on the first missing one. */
module Factories {
  import opened Common
  import opened Events

  /** The keyword arguments a factory can be called with. A key the caller left
      out is `None`; keys no factory reads play no part and are not represented,
      except `modelID`, which a caller may pass but the detection factory ignores. */
  datatype EventArgs = EventArgs(
    eventId: Option<string>,
    timestamp: Option<int>,
    eventType: Option<string>,
    zona: Option<string>,
    severity: Option<int>,
    detectionResultID: Option<string>,
    modelID: Option<string>,
    component: Option<string>,
    message: Option<string>)

  /** The keyword-argument names the factories look up. */
  datatype Key =
    | EventIdKey | TimestampKey | EventTypeKey | ZonaKey | SeverityKey
    | DetectionResultIdKey | ComponentKey | MessageKey

  /** The name a `KeyError` reports for a key. */
  function KeyName(k: Key): string {
    match k
    case EventIdKey => "event_id"
    case TimestampKey => "timestamp"
    case EventTypeKey => "event_type"
    case ZonaKey => "zona"
    case SeverityKey => "severity"
    case DetectionResultIdKey => "detectionResultID"
    case ComponentKey => "component"
    case MessageKey => "message"
  }

  /** Whether the keyword argument `key` was passed. */
  predicate Present(args: EventArgs, key: Key) {
    match key
    case EventIdKey => args.eventId.Some?
    case TimestampKey => args.timestamp.Some?
    case EventTypeKey => args.eventType.Some?
    case ZonaKey => args.zona.Some?
    case SeverityKey => args.severity.Some?
    case DetectionResultIdKey => args.detectionResultID.Some?
    case ComponentKey => args.component.Some?
    case MessageKey => args.message.Some?
  }

  /** The keys each factory looks up, in the order its call evaluates them. */
  const DetectionKeys: seq<Key> :=
    [EventIdKey, TimestampKey, EventTypeKey, ZonaKey, SeverityKey, DetectionResultIdKey]
  const SystemKeys: seq<Key> :=
    [EventIdKey, TimestampKey, EventTypeKey, ZonaKey, SeverityKey, ComponentKey, MessageKey]

  /** The first of `keys` that was not passed: the key a `KeyError` names. */
  function FirstMissing(args: EventArgs, keys: seq<Key>): (r: Option<Key>)
    ensures r.None? <==> forall k :: k in keys ==> Present(args, k)
    ensures r.Some? ==> r.value in keys && !Present(args, r.value)
    ensures r.Some? ==> exists i :: 0 <= i < |keys| && keys[i] == r.value &&
                          forall j :: 0 <= j < i ==> Present(args, keys[j])
  {
    if keys == [] then None
    else if !Present(args, keys[0]) then Some(keys[0])
    else
      var rest := FirstMissing(args, keys[1..]);
      assert rest.Some? ==> exists i :: 0 <= i < |keys| && keys[i] == rest.value &&
                              forall j :: 0 <= j < i ==> Present(args, keys[j]) by {
        if rest.Some? {
          var i :| 0 <= i < |keys[1..]| && keys[1..][i] == rest.value &&
                   forall j :: 0 <= j < i ==> Present(args, keys[1..][j]);
          assert keys[i + 1] == rest.value;
          assert forall j :: 0 <= j < i + 1 ==> Present(args, keys[j]) by {
            forall j | 0 <= j < i + 1 ensures Present(args, keys[j]) {
              if j > 0 { assert keys[j] == keys[1..][j - 1]; }
            }
          }
        }
      }
      rest
  }

  /** Keys that were passed do not decide which key is reported missing. */
  lemma {:induction false} FirstMissingSkipsPresent(args: EventArgs, keys: seq<Key>, n: nat)
    requires n <= |keys|
    requires forall j :: 0 <= j < n ==> Present(args, keys[j])
    ensures FirstMissing(args, keys) == FirstMissing(args, keys[n..])
  {
    if n > 0 {
      FirstMissingSkipsPresent(args, keys[1..], n - 1);
      assert keys[1..][n - 1..] == keys[n..];
    }
  }

  /** `DetectionEventFactory(model_id).create_event(**kwargs)`: succeeds exactly
      when every detection key was passed; copies each into its field and takes
      the model id from the factory, never from the arguments. */
  function DetectionEventData(modelId: string, args: EventArgs): (r: Result<EventData>)
    ensures r.Ok? <==> forall k :: k in DetectionKeys ==> Present(args, k)
    ensures r.Err? ==> exists k :: k in DetectionKeys && !Present(args, k) && r.error == KeyError(KeyName(k))
    ensures r.Err? ==> r.error == KeyError(KeyName(FirstMissing(args, DetectionKeys).value))
    ensures r.Ok? ==>
      args.eventId == Some(r.value.id) && args.timestamp == Some(r.value.timestamp) &&
      args.eventType == Some(r.value.eventType) && args.zona == Some(r.value.zona) &&
      args.severity == Some(r.value.severity) &&
      args.detectionResultID.Some? &&
      r.value.variant == Detection(args.detectionResultID.value, modelId)
  {
    match FirstMissing(args, DetectionKeys)
    case Some(key) => Err(KeyError(KeyName(key)))
    case None =>
      assert Present(args, EventIdKey) && Present(args, TimestampKey) && Present(args, EventTypeKey);
      assert Present(args, ZonaKey) && Present(args, SeverityKey) && Present(args, DetectionResultIdKey);
      Ok(EventData(args.eventId.value, args.timestamp.value, args.eventType.value,
                   args.zona.value, args.severity.value,
                   Detection(args.detectionResultID.value, modelId)))
  }

  /** `SystemEventFactory().create_event(**kwargs)`: succeeds exactly when every
      system key was passed and copies each into its field. */
  function SystemEventData(args: EventArgs): (r: Result<EventData>)
    ensures r.Ok? <==> forall k :: k in SystemKeys ==> Present(args, k)
    ensures r.Err? ==> exists k :: k in SystemKeys && !Present(args, k) && r.error == KeyError(KeyName(k))
    ensures r.Err? ==> r.error == KeyError(KeyName(FirstMissing(args, SystemKeys).value))
    ensures r.Ok? ==>
      args.eventId == Some(r.value.id) && args.timestamp == Some(r.value.timestamp) &&
      args.eventType == Some(r.value.eventType) && args.zona == Some(r.value.zona) &&
      args.severity == Some(r.value.severity) &&
      args.component.Some? && args.message.Some? &&
      r.value.variant == System(args.component.value, args.message.value)
  {
    match FirstMissing(args, SystemKeys)
    case Some(key) => Err(KeyError(KeyName(key)))
    case None =>
      assert Present(args, EventIdKey) && Present(args, TimestampKey) && Present(args, EventTypeKey);
      assert Present(args, ZonaKey) && Present(args, SeverityKey);
      assert Present(args, ComponentKey) && Present(args, MessageKey);
      Ok(EventData(args.eventId.value, args.timestamp.value, args.eventType.value,
                   args.zona.value, args.severity.value,
                   System(args.component.value, args.message.value)))
  }

  class DetectionEventFactory {
    const modelId: string

    constructor (modelId: string)
      ensures this.modelId == modelId
    {
      this.modelId := modelId;
    }

    /** Builds a fresh detection event, which starts with the notification strategy. */
    method CreateEvent(args: EventArgs) returns (r: Result<Event>)
      ensures r.Ok? <==> DetectionEventData(modelId, args).Ok?
      ensures r.Ok? ==> fresh(r.value) && r.value.data == DetectionEventData(modelId, args).value
                        && r.value.strategy == Notification
      ensures r.Err? ==> r.error == DetectionEventData(modelId, args).error
    {
      match DetectionEventData(modelId, args)
      case Err(e) =>
        r := Err(e);
      case Ok(d) =>
        var event := new Event(d, None);
        r := Ok(event);
    }
  }

  class SystemEventFactory {
    constructor ()
    {
    }

    /** Builds a fresh system event, which always starts with the admin-alert strategy. */
    method CreateEvent(args: EventArgs) returns (r: Result<Event>)
      ensures r.Ok? <==> SystemEventData(args).Ok?
      ensures r.Ok? ==> fresh(r.value) && r.value.data == SystemEventData(args).value
                        && r.value.strategy == AdminAlert
      ensures r.Err? ==> r.error == SystemEventData(args).error
    {
      match SystemEventData(args)
      case Err(e) =>
        r := Err(e);
      case Ok(d) =>
        var event := new Event(d, None);
        r := Ok(event);
    }
  }
}
