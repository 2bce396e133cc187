/** The observer registry and event bus (`EventManager`): an ordered list of
    observers, appended to by subscribe, shortened by unsubscribe, and walked in
    order by publish. */
module Bus {
  import opened Common
  import opened Effects
  import opened Execution
  import opened Events
  import opened Observers

  /** Index of the first occurrence of `x` in `s`. */
  function FirstIndex<T(==)>(s: seq<T>, x: T): (i: nat)
    requires x in s
    ensures i < |s| && s[i] == x && x !in s[..i]
  {
    if s[0] == x then 0 else 1 + FirstIndex(s[1..], x)
  }

  /** Python's `list.remove(x)` on a list that contains `x`: drop the first
      occurrence and keep the rest in order. Exactly one copy of `x` goes. */
  function RemoveFirst<T(==)>(s: seq<T>, x: T): (r: seq<T>)
    requires x in s
    ensures |r| == |s| - 1
    ensures multiset(r) == multiset(s) - multiset{x}
    ensures exists i :: 0 <= i < |s| && s[i] == x && x !in s[..i] && r == s[..i] + s[i + 1..]
  {
    var i := FirstIndex(s, x);
    assert s == s[..i] + [x] + s[i + 1..];
    s[..i] + s[i + 1..]
  }

  /** Subscribing an observer and unsubscribing it again restores the list when it
      was not subscribed before; otherwise the older entry is the one removed. */
  lemma SubscribeThenUnsubscribe<T>(s: seq<T>, x: T)
    ensures x !in s ==> RemoveFirst(s + [x], x) == s
    ensures x in s ==> RemoveFirst(s + [x], x) == RemoveFirst(s, x) + [x]
  {
    var t := s + [x];
    var j := FirstIndex(t, x);
    if x !in s {
      assert t[..j] == s;
    } else {
      var i := FirstIndex(s, x);
      assert t[i] == x && t[..i] == s[..i];
      assert j <= i && t[..j] == s[..j];
      assert j == i;
      assert t[i + 1..] == s[i + 1..] + [x];
    }
  }

  /** The result of publishing: what was printed, the `add_command` calls made,
      the event's strategy afterwards, the observers whose `update` was called (in
      call order) and the exception that ended the walk, if any. */
  datatype Outcome = Outcome(
    effects: seq<Effect>,
    enqueued: seq<Enqueue>,
    strategy: Strategy,
    notified: seq<Observer>,
    failure: Option<Error>)

  /** Publishing an event with fields `d` and strategy `s` to `obs`: call each
      observer's `update` in list order; an exception stops the walk and
      propagates. */
  function PublishSpec(obs: seq<Observer>, d: EventData, s: Strategy): Outcome {
    if obs == [] then Outcome([], [], s, [], None)
    else
      var prev := PublishSpec(obs[..|obs| - 1], d, s);
      if prev.failure.Some? then prev
      else
        var o := obs[|obs| - 1];
        var st := ObserverStep(o, d, prev.strategy);
        Outcome(prev.effects + st.effects, prev.enqueued + st.enqueued, st.strategy,
                prev.notified + [o], st.failure)
  }

  /** One more observer extends a walk that has not failed by that observer's step. */
  lemma PublishSpecStep(obs: seq<Observer>, i: nat, d: EventData, s: Strategy)
    requires i < |obs|
    requires PublishSpec(obs[..i], d, s).failure.None?
    ensures var prev := PublishSpec(obs[..i], d, s);
      var st := ObserverStep(obs[i], d, prev.strategy);
      PublishSpec(obs[..i + 1], d, s) ==
        Outcome(prev.effects + st.effects, prev.enqueued + st.enqueued, st.strategy,
                prev.notified + [obs[i]], st.failure)
  {
    assert obs[..i + 1][..i] == obs[..i];
  }

  /** The executors publishing to `obs` may append to, apart from the one the
      event's own strategy names. */
  function ExecutorsOf(obs: seq<Observer>): (r: set<ExecutionModule>)
    ensures forall x | x in r :: exists i | 0 <= i < |obs| :: obs[i].RuleObserver? && obs[i].engine.executionModule == x
  {
    if obs == [] then {}
    else
      var init := obs[..|obs| - 1];
      assert forall i | 0 <= i < |init| :: init[i] == obs[i];
      ExecutorsOf(init) + ObserverTargets(obs[|obs| - 1])
  }

  /** Every rule engine's executor is within reach of a publish. */
  lemma {:induction false} EngineExecutorInReach(obs: seq<Observer>, i: nat)
    requires i < |obs| && obs[i].RuleObserver?
    ensures obs[i].engine.executionModule in ExecutorsOf(obs)
  {
    if i < |obs| - 1 {
      EngineExecutorInReach(obs[..|obs| - 1], i);
    }
  }

  /** Once an observer has raised, later observers are not notified. */
  lemma {:induction false} PublishStopsAtFailure(obs: seq<Observer>, k: nat, d: EventData, s: Strategy)
    requires k <= |obs|
    requires PublishSpec(obs[..k], d, s).failure.Some?
    ensures PublishSpec(obs, d, s) == PublishSpec(obs[..k], d, s)
    decreases |obs|
  {
    if k < |obs| {
      var init := obs[..|obs| - 1];
      assert init[..k] == obs[..k];
      PublishStopsAtFailure(init, k, d, s);
    } else {
      assert obs[..k] == obs;
    }
  }

  /** Every subscribed observer is notified exactly once, in subscription order;
      if one raises, exactly the observers up to and including it were notified. */
  lemma {:induction false} PublishNotifiesInOrder(obs: seq<Observer>, d: EventData, s: Strategy)
    ensures var r := PublishSpec(obs, d, s);
      |r.notified| <= |obs| && r.notified == obs[..|r.notified|] &&
      (r.failure.None? ==> r.notified == obs) &&
      (r.failure.Some? ==> |r.notified| >= 1)
  {
    if obs != [] {
      var init := obs[..|obs| - 1];
      PublishNotifiesInOrder(init, d, s);
      var prev := PublishSpec(init, d, s);
      assert obs[..|prev.notified|] == init[..|prev.notified|];
      if prev.failure.None? {
        assert obs == init + [obs[|obs| - 1]];
      }
    }
  }

  /** Subscribing the same observer twice makes it be notified twice per publish. */
  lemma DuplicateSubscriptionNotifiesTwice(obs: seq<Observer>, o: Observer, d: EventData, s: Strategy)
    requires PublishSpec(obs + [o, o], d, s).failure.None?
    ensures multiset(PublishSpec(obs + [o, o], d, s).notified)[o] == multiset(obs)[o] + 2
  {
    PublishNotifiesInOrder(obs + [o, o], d, s);
    assert multiset(obs + [o, o]) == multiset(obs) + multiset{o, o};
  }

  /** Commands land only on the rule engines' executors or on the executor of the
      strategy the event carried when it was published. */
  lemma {:induction false} PublishEnqueuesWithinReach(obs: seq<Observer>, d: EventData, s: Strategy)
    ensures var r := PublishSpec(obs, d, s);
      (forall k :: 0 <= k < |r.enqueued| ==> r.enqueued[k].target in ExecutorsOf(obs) + StrategyTargets(s)) &&
      StrategyTargets(r.strategy) <= ExecutorsOf(obs) + StrategyTargets(s)
  {
    if obs != [] {
      var init := obs[..|obs| - 1];
      PublishEnqueuesWithinReach(init, d, s);
    }
  }

  /** The rule engines among `obs`, in order. */
  function RuleEngines(obs: seq<Observer>): seq<RuleEngine> {
    if obs == [] then []
    else RuleEngines(obs[..|obs| - 1])
         + (if obs[|obs| - 1].RuleObserver? then [obs[|obs| - 1].engine] else [])
  }

  /** One "open barrier B1" append per rule engine, on that engine's executor. */
  function BarrierEnqueues(engines: seq<RuleEngine>): (r: seq<Enqueue>)
    ensures |r| == |engines|
    ensures forall i :: 0 <= i < |r| ==> r[i] == Enqueue(engines[i].executionModule, OpenBarrier(BarrierId))
  {
    if engines == [] then []
    else BarrierEnqueues(engines[..|engines| - 1])
         + [Enqueue(engines[|engines| - 1].executionModule, OpenBarrier(BarrierId))]
  }

  /** Publishing a detection of a person: no observer raises, every rule engine
      schedules exactly one barrier opening on its executor, in subscription
      order, and no command is executed while publishing. */
  lemma {:induction false} PublishPersonDetected(obs: seq<Observer>, d: EventData, s: Strategy)
    requires d.eventType == PersonDetected && d.variant.Detection?
    ensures var r := PublishSpec(obs, d, s);
      r.failure.None? &&
      r.enqueued == BarrierEnqueues(RuleEngines(obs)) &&
      (forall i :: 0 <= i < |r.effects| ==> !r.effects[i].Executed?)
  {
    if obs != [] {
      var init := obs[..|obs| - 1];
      PublishPersonDetected(init, d, s);
      var o := obs[|obs| - 1];
      if o.RuleObserver? {
        assert RuleEngines(obs) == RuleEngines(init) + [o.engine];
        assert RuleEngines(obs)[..|RuleEngines(obs)| - 1] == RuleEngines(init);
      }
    }
  }

  /** Publishing a system failure whose event still carries the admin-alert
      strategy: no observer raises, nothing is scheduled, the strategy stays, and
      the admin alert is printed once per subscribed rule engine; with no rule
      engine subscribed there is no alert at all. */
  lemma {:induction false} PublishSystemFailure(obs: seq<Observer>, d: EventData)
    requires d.eventType == SystemFailure && d.variant.System?
    ensures var r := PublishSpec(obs, d, AdminAlert);
      r.failure.None? && r.enqueued == [] && r.strategy == AdminAlert &&
      multiset(r.effects)[AdminAlerted(d.variant.component, d.variant.message)] == |RuleEngines(obs)|
  {
    if obs != [] {
      var init := obs[..|obs| - 1];
      PublishSystemFailure(init, d);
      var o := obs[|obs| - 1];
      var prev := PublishSpec(init, d, AdminAlert);
      var st := ObserverStep(o, d, AdminAlert);
      assert multiset(prev.effects + st.effects) == multiset(prev.effects) + multiset(st.effects);
    }
  }

  /** Publishing an event whose type has no rule: no observer raises, nothing is
      scheduled and the attached strategy is left as it was. */
  lemma {:induction false} PublishUnknownType(obs: seq<Observer>, d: EventData, s: Strategy)
    requires d.eventType != PersonDetected && d.eventType != SystemFailure
    ensures var r := PublishSpec(obs, d, s);
      r.failure.None? && r.enqueued == [] && r.strategy == s
  {
    if obs != [] {
      PublishUnknownType(obs[..|obs| - 1], d, s);
    }
  }

  class EventManager {
    var observers: seq<Observer>

    constructor ()
      ensures observers == []
    {
      observers := [];
    }

    /** `subscribe`: append at the tail; a second subscription adds a second entry. */
    method Subscribe(o: Observer)
      modifies this
      ensures observers == old(observers) + [o]
    {
      observers := observers + [o];
    }

    /** `unsubscribe`: remove the first entry equal to `o`, keeping the order of
        the rest; raise `ValueError` and change nothing if there is none. */
    method Unsubscribe(o: Observer) returns (failure: Option<Error>)
      modifies this
      ensures failure.None? <==> o in old(observers)
      ensures failure.None? ==> observers == RemoveFirst(old(observers), o)
      ensures failure.Some? ==>
        observers == old(observers) && failure.value == ValueError("list.remove(x): x not in list")
    {
      var i := 0;
      while i < |observers| && observers[i] != o
        invariant 0 <= i <= |observers|
        invariant o !in observers[..i]
      {
        assert observers[..i + 1] == observers[..i] + [observers[i]];
        i := i + 1;
      }
      if i == |observers| {
        assert observers[..i] == observers;
        failure := Some(ValueError("list.remove(x): x not in list"));
      } else {
        assert FirstIndex(observers, o) == i;
        observers := observers[..i] + observers[i + 1..];
        failure := None;
      }
    }

    /** One observer's `update`, described over every executor in `reach`: each
        queue there holds its snapshot `base` plus the commands enqueued for it so
        far, `prior` before the call and `prior` plus this observer's after. */
    method NotifyWithin(o: Observer, e: Event, ghost reach: set<ExecutionModule>,
                        ghost base: map<ExecutionModule, seq<Command>>, ghost prior: seq<Enqueue>)
      returns (out: seq<Effect>, failure: Option<Error>)
      requires ObserverTargets(o) + StrategyTargets(e.strategy) <= reach
      requires forall x | x in reach :: x in base && x.queue == base[x] + CommandsFor(prior, x)
      modifies e, ObserverTargets(o), StrategyTargets(e.strategy)
      ensures var st := ObserverStep(o, e.data, old(e.strategy));
        out == st.effects && failure == st.failure && e.strategy == st.strategy &&
        StrategyTargets(e.strategy) <= reach &&
        forall x | x in reach :: x.queue == base[x] + CommandsFor(prior + st.enqueued, x)
    {
      ghost var s := e.strategy;
      ghost var st := ObserverStep(o, e.data, s);
      ObserverStepReach(o, e.data, s);
      out, failure := Deliver(o, e);
      forall x | x in reach
        ensures x.queue == base[x] + CommandsFor(prior + st.enqueued, x)
      {
        CommandsForAppend(prior, st.enqueued, x);
        if x !in ObserverTargets(o) + StrategyTargets(s) {
          CommandsForElsewhere(st.enqueued, x);
        }
      }
    }

    /** `publish`: call `update` on every observer in list order, stopping at the
        first exception, which propagates. The observer list is not changed. */
    method Publish(e: Event) returns (out: seq<Effect>, notified: seq<Observer>, failure: Option<Error>)
      modifies e, ExecutorsOf(observers), StrategyTargets(e.strategy)
      ensures var r := PublishSpec(observers, e.data, old(e.strategy));
        out == r.effects && notified == r.notified && failure == r.failure && e.strategy == r.strategy &&
        forall x | x in ExecutorsOf(observers) + StrategyTargets(old(e.strategy)) ::
          x.queue == old(x.queue) + CommandsFor(r.enqueued, x)
    {
      var obs := observers;
      ghost var s0 := e.strategy;
      ghost var reach := ExecutorsOf(obs) + StrategyTargets(e.strategy);
      ghost var base := map x | x in reach :: x.queue;
      ghost var r := Outcome([], [], s0, [], None);
      out, notified, failure := [], [], None;
      var i := 0;
      while i < |obs| && failure.None?
        invariant 0 <= i <= |obs|
        invariant r == PublishSpec(obs[..i], e.data, s0)
        invariant out == r.effects && notified == r.notified && e.strategy == r.strategy
        invariant failure == r.failure
        invariant StrategyTargets(e.strategy) <= reach
        invariant forall x | x in reach :: x in base && x.queue == base[x] + CommandsFor(r.enqueued, x)
        decreases |obs| - i
      {
        var o := obs[i];
        ghost var st := ObserverStep(o, e.data, r.strategy);
        PublishSpecStep(obs, i, e.data, s0);
        if o.RuleObserver? {
          EngineExecutorInReach(obs, i);
        }
        var effects, f := NotifyWithin(o, e, reach, base, r.enqueued);
        r := Outcome(r.effects + st.effects, r.enqueued + st.enqueued, st.strategy, r.notified + [o], st.failure);
        out, notified, failure := out + effects, notified + [o], f;
        i := i + 1;
      }
      if failure.Some? {
        PublishStopsAtFailure(obs, i, e.data, s0);
      } else {
        assert obs[..i] == obs;
      }
    }
  }
}
