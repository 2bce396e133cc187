/** Events, the action strategies that can be attached to them, and how running
    a strategy behaves. */
module Events {
  import opened Common
  import opened Effects
  import opened Execution

  /** Which class the event is: a plain `Event`, a `DetectionEvent` with its
      extra fields, or a `SystemEvent` with its extra fields. */
  datatype Variant =
    | Plain
    | Detection(detectionResultID: string, modelID: string)
    | System(component: string, message: string)

  /** The fields an event is created with; none of them is reassigned later.
      `timestamp` is in milliseconds. */
  datatype EventData = EventData(
    id: string,
    timestamp: int,
    eventType: string,
    zona: string,
    severity: int,
    variant: Variant)

  /** The three action strategies. A device-control strategy closes over a
      command and the executor it schedules that command on. */
  datatype Strategy =
    | Notification
    | DeviceControl(command: Command, executor: ExecutionModule)
    | AdminAlert

  /** The executors that running `s` may append to. */
  function StrategyTargets(s: Strategy): set<ExecutionModule> {
    if s.DeviceControl? then {s.executor} else {}
  }

  /** What running strategy `s` on an event with fields `d` prints. */
  function StrategyEffects(s: Strategy, d: EventData): seq<Effect> {
    match s
    case Notification => [Notified(d.eventType, d.zona)]
    case DeviceControl(_, _) => [SchedulingAction(d.zona)]
    case AdminAlert =>
      if d.variant.System? then [AdminAlerted(d.variant.component, d.variant.message)]
      else [UnknownAdminAlert]
  }

  /** The `add_command` calls that running `s` makes. */
  function StrategyEnqueues(s: Strategy): seq<Enqueue> {
    if s.DeviceControl? then [Enqueue(s.executor, s.command)] else []
  }

  /** Running any strategy prints exactly one record and runs no command; only
      device control schedules anything, and it schedules exactly its own command
      on its own executor. The admin alert names the component and message of a
      system event and falls back to the unknown-issue record otherwise. */
  lemma StrategyContract(s: Strategy, d: EventData)
    ensures |StrategyEffects(s, d)| == 1 && !StrategyEffects(s, d)[0].Executed?
    ensures s.Notification? ==> StrategyEffects(s, d)[0] == Notified(d.eventType, d.zona)
    ensures s.AdminAlert? ==>
      (StrategyEffects(s, d)[0].AdminAlerted? <==> d.variant.System?) &&
      (d.variant.System? ==> StrategyEffects(s, d)[0] == AdminAlerted(d.variant.component, d.variant.message))
    ensures (StrategyEnqueues(s) != []) <==> s.DeviceControl?
    ensures s.DeviceControl? ==> StrategyEnqueues(s) == [Enqueue(s.executor, s.command)]
    ensures forall x :: x !in StrategyTargets(s) ==> CommandsFor(StrategyEnqueues(s), x) == []
  {
    forall x | x !in StrategyTargets(s)
      ensures CommandsFor(StrategyEnqueues(s), x) == []
    {
      CommandsForElsewhere(StrategyEnqueues(s), x);
    }
  }

  class Event {
    const data: EventData
    /** The attached strategy; any holder of the event may replace it. */
    var strategy: Strategy

    /** `Event.__init__` together with the subclass constructors: a system event
        always starts with the admin-alert strategy (it takes no strategy argument),
        any other event starts with the given strategy or with notification. */
    constructor (data: EventData, given: Option<Strategy>)
      requires data.variant.System? ==> given.None?
      ensures this.data == data
      ensures data.variant.System? ==> strategy == AdminAlert
      ensures !data.variant.System? && given.None? ==> strategy == Notification
      ensures given.Some? ==> strategy == given.value
    {
      this.data := data;
      if data.variant.System? {
        strategy := AdminAlert;
      } else {
        strategy := given.GetOr(Notification);
      }
    }

    /** `set_action_strategy`: the last write wins. */
    method SetActionStrategy(s: Strategy)
      modifies this
      ensures strategy == s
    {
      strategy := s;
    }

    /** `executeAction`: run the strategy attached now. Only a device-control
        strategy changes state, by appending its command to its executor. */
    method ExecuteAction() returns (out: seq<Effect>)
      modifies StrategyTargets(strategy)
      ensures out == StrategyEffects(strategy, data)
      ensures strategy.DeviceControl? ==>
        strategy.executor.queue == old(strategy.executor.queue) + [strategy.command]
    {
      match strategy
      case Notification =>
        out := [Notified(data.eventType, data.zona)];
      case DeviceControl(command, executor) =>
        out := [SchedulingAction(data.zona)];
        executor.AddCommand(command);
      case AdminAlert =>
        if data.variant.System? {
          out := [AdminAlerted(data.variant.component, data.variant.message)];
        } else {
          out := [UnknownAdminAlert];
        }
    }

    /** `DetectionEvent.toRuleTrigger`; any other event has no such method. */
    method ToRuleTrigger() returns (r: Result<Effect>)
      ensures data.variant.Detection? ==> r == Ok(RuleTriggered(data.id, data.variant.modelID))
      ensures !data.variant.Detection? ==> r == Err(AttributeError("toRuleTrigger"))
    {
      if data.variant.Detection? {
        r := Ok(RuleTriggered(data.id, data.variant.modelID));
      } else {
        r := Err(AttributeError("toRuleTrigger"));
      }
    }

    /** `SystemEvent.alertAdmin`: run the attached strategy; any other event has no
        such method. */
    method AlertAdmin() returns (out: seq<Effect>, failure: Option<Error>)
      modifies StrategyTargets(strategy)
      ensures failure.None? <==> data.variant.System?
      ensures failure.Some? ==> failure.value == AttributeError("alertAdmin") && out == []
      ensures failure.None? ==> out == StrategyEffects(strategy, data)
      ensures forall x | x in StrategyTargets(strategy) ::
        x.queue == old(x.queue) + (if failure.None? then CommandsFor(StrategyEnqueues(strategy), x) else [])
    {
      if data.variant.System? {
        out := ExecuteAction();
        failure := None;
      } else {
        out, failure := [], Some(AttributeError("alertAdmin"));
      }
    }
  }
}
