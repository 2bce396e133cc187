/** The observers a bus can deliver to: the rule engine and the storage sink. */
module Observers {
  import opened Common
  import opened Effects
  import opened Execution
  import opened Events

  const PersonDetected := "person_detected"
  const SystemFailure := "system_failure"
  const BarrierId := "B1"

  /** The rule engine's handlers. */
  datatype Rule = HandlePerson | HandleSystem

  /** The rule engine's dispatch table, keyed by event type. */
  const Rules: map<string, Rule> := map[PersonDetected := HandlePerson, SystemFailure := HandleSystem]

  /** What one observer's `update` did: what it printed, which commands it
      appended where, the strategy the event carries afterwards, and the exception
      it raised, if any. */
  datatype Step = Step(
    effects: seq<Effect>,
    enqueued: seq<Enqueue>,
    strategy: Strategy,
    failure: Option<Error>)

  class RuleEngine {
    const executionModule: ExecutionModule

    constructor (executionModule: ExecutionModule)
      ensures this.executionModule == executionModule
    {
      this.executionModule := executionModule;
    }

    /** `update`: print the receipt, look the event type up in the dispatch table
        and run the handler found; an unknown type is ignored. */
    method Update(e: Event) returns (out: seq<Effect>, failure: Option<Error>)
      modifies e, executionModule, StrategyTargets(e.strategy)
      ensures var st := RuleUpdate(this, e.data, old(e.strategy));
        out == st.effects && failure == st.failure && e.strategy == st.strategy &&
        forall x | x in {executionModule} + StrategyTargets(old(e.strategy)) ::
          x.queue == old(x.queue) + CommandsFor(st.enqueued, x)
    {
      out := [RuleEngineReceived(e.data.id)];
      failure := None;
      if e.data.eventType in Rules {
        match Rules[e.data.eventType]
        case HandlePerson =>
          var handled, f := HandlePersonEvent(e);
          out, failure := out + handled, f;
        case HandleSystem =>
          var handled, f := HandleSystemEvent(e);
          out, failure := out + handled, f;
      }
    }

    /** `_handle_person`: log the rule trigger, replace the event's strategy by a
        device-control strategy that opens barrier B1 through this engine's
        executor, and run it, which only schedules the command. */
    method HandlePersonEvent(e: Event) returns (out: seq<Effect>, failure: Option<Error>)
      modifies e, executionModule
      ensures e.data.variant.Detection? ==>
        failure.None? &&
        e.strategy == DeviceControl(OpenBarrier(BarrierId), executionModule) &&
        executionModule.queue == old(executionModule.queue) + [OpenBarrier(BarrierId)] &&
        out == [RuleTriggered(e.data.id, e.data.variant.modelID), SchedulingAction(e.data.zona)]
      ensures !e.data.variant.Detection? ==>
        failure == Some(AttributeError("toRuleTrigger")) && out == [] &&
        e.strategy == old(e.strategy) && executionModule.queue == old(executionModule.queue)
    {
      var trigger := e.ToRuleTrigger();
      if trigger.Err? {
        return [], Some(trigger.error);
      }
      var command := OpenBarrier(BarrierId);
      var strategy := DeviceControl(command, executionModule);
      e.SetActionStrategy(strategy);
      var scheduled := e.ExecuteAction();
      out, failure := [trigger.value] + scheduled, None;
    }

    /** `_handle_system`: run the event's attached strategy through `alertAdmin`. */
    method HandleSystemEvent(e: Event) returns (out: seq<Effect>, failure: Option<Error>)
      modifies StrategyTargets(e.strategy)
      ensures failure.None? <==> e.data.variant.System?
      ensures failure.Some? ==> failure.value == AttributeError("alertAdmin") && out == []
      ensures failure.None? ==> out == StrategyEffects(e.strategy, e.data)
      ensures forall x | x in StrategyTargets(e.strategy) ::
        x.queue == old(x.queue) + (if failure.None? then CommandsFor(StrategyEnqueues(e.strategy), x) else [])
    {
      out, failure := e.AlertAdmin();
    }
  }

  /** What `RuleEngine.update` does to an event with fields `d` carrying strategy `s`. */
  function RuleUpdate(engine: RuleEngine, d: EventData, s: Strategy): Step {
    var received := [RuleEngineReceived(d.id)];
    if d.eventType !in Rules then Step(received, [], s, None)
    else match Rules[d.eventType]
      case HandlePerson =>
        if !d.variant.Detection? then Step(received, [], s, Some(AttributeError("toRuleTrigger")))
        else
          var barrier := DeviceControl(OpenBarrier(BarrierId), engine.executionModule);
          Step(received + [RuleTriggered(d.id, d.variant.modelID)] + StrategyEffects(barrier, d),
               StrategyEnqueues(barrier), barrier, None)
      case HandleSystem =>
        if !d.variant.System? then Step(received, [], s, Some(AttributeError("alertAdmin")))
        else Step(received + StrategyEffects(s, d), StrategyEnqueues(s), s, None)
  }

  /** The rule engine's dispatch policy. */
  lemma RuleUpdateContract(engine: RuleEngine, d: EventData, s: Strategy)
    ensures var r := RuleUpdate(engine, d, s);
      // the receipt comes first, and no command is ever executed while handling
      |r.effects| >= 1 && r.effects[0] == RuleEngineReceived(d.id) &&
      (forall i :: 0 <= i < |r.effects| ==> !r.effects[i].Executed?) &&
      // unknown event types pass through untouched
      (d.eventType != PersonDetected && d.eventType != SystemFailure ==>
        r == Step([RuleEngineReceived(d.id)], [], s, None)) &&
      // a detection: a new device-control strategy, one command scheduled on this engine's executor
      (d.eventType == PersonDetected && d.variant.Detection? ==>
        r.failure.None? &&
        r.strategy == DeviceControl(OpenBarrier(BarrierId), engine.executionModule) &&
        r.enqueued == [Enqueue(engine.executionModule, OpenBarrier(BarrierId))] &&
        r.effects == [RuleEngineReceived(d.id), RuleTriggered(d.id, d.variant.modelID), SchedulingAction(d.zona)]) &&
      // a system failure: the attached strategy runs and stays attached
      (d.eventType == SystemFailure && d.variant.System? ==>
        r.failure.None? && r.strategy == s && r.enqueued == StrategyEnqueues(s) &&
        r.effects == [RuleEngineReceived(d.id)] + StrategyEffects(s, d)) &&
      // a handler applied to the wrong kind of event raises before changing anything
      ((d.eventType == PersonDetected && !d.variant.Detection?) ||
       (d.eventType == SystemFailure && !d.variant.System?) ==>
        r.failure.Some? && r.strategy == s && r.enqueued == [] && r.effects == [RuleEngineReceived(d.id)])
  {
    StrategyContract(s, d);
  }

  /** Whatever an observer does, the event's strategy afterwards is the old one or
      the observer's own barrier strategy, and commands only go to the observer's
      executor or to the old strategy's. */
  lemma ObserverStepReach(o: Observer, d: EventData, s: Strategy)
    ensures var r := ObserverStep(o, d, s);
      (r.strategy == s ||
       (o.RuleObserver? && r.strategy == DeviceControl(OpenBarrier(BarrierId), o.engine.executionModule))) &&
      (forall k :: 0 <= k < |r.enqueued| ==> r.enqueued[k].target in ObserverTargets(o) + StrategyTargets(s))
  {
  }

  class StorageService {
    constructor ()
    {
    }

    /** `update`: report that the event was persisted. */
    method Update(e: Event) returns (out: seq<Effect>)
      ensures out == [Persisted(e.data.id)]
    {
      out := [Persisted(e.data.id)];
    }
  }

  /** The closed set of observer kinds. Equality is identity of the underlying
      object, as for Python objects without `__eq__`. */
  datatype Observer = RuleObserver(engine: RuleEngine) | StorageObserver(storage: StorageService)

  /** The executor an observer may append to. */
  function ObserverTargets(o: Observer): set<ExecutionModule> {
    if o.RuleObserver? then {o.engine.executionModule} else {}
  }

  /** What `o.update(e)` does to an event with fields `d` carrying strategy `s`. */
  function ObserverStep(o: Observer, d: EventData, s: Strategy): Step {
    match o
    case RuleObserver(engine) => RuleUpdate(engine, d, s)
    case StorageObserver(_) => Step([Persisted(d.id)], [], s, None)
  }

  /** `o.update(e)`. */
  method Deliver(o: Observer, e: Event) returns (out: seq<Effect>, failure: Option<Error>)
    modifies e, ObserverTargets(o), StrategyTargets(e.strategy)
    ensures var st := ObserverStep(o, e.data, old(e.strategy));
      out == st.effects && failure == st.failure && e.strategy == st.strategy &&
      forall x | x in ObserverTargets(o) + StrategyTargets(old(e.strategy)) ::
        x.queue == old(x.queue) + CommandsFor(st.enqueued, x)
  {
    match o
    case RuleObserver(engine) =>
      out, failure := engine.Update(e);
    case StorageObserver(storage) =>
      out := storage.Update(e);
      failure := None;
  }
}
