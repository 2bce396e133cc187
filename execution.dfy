/** The deferred command queue (`ExecutionModule`) and the bookkeeping used to
    describe which queue a command was appended to. */
module Execution {
  import opened Effects

  /** What running the queued commands prints: one execution record per command,
      in queue order. */
  function Executions(q: seq<Command>): (out: seq<Effect>)
    ensures |out| == |q|
    ensures forall i :: 0 <= i < |q| ==> out[i] == Executed(q[i])
  {
    if q == [] then [] else Executions(q[..|q| - 1]) + [Executed(q[|q| - 1])]
  }

  /** Every queued command is executed exactly once: the number of execution
      records for `c` equals the number of times `c` was queued. */
  lemma {:induction false} ExecutionsOnce(q: seq<Command>, c: Command)
    ensures multiset(Executions(q))[Executed(c)] == multiset(q)[c]
  {
    if q != [] {
      var init := q[..|q| - 1];
      ExecutionsOnce(init, c);
      assert q == init + [q[|q| - 1]];
      assert Executions(q) == Executions(init) + [Executed(q[|q| - 1])];
    }
  }

  class ExecutionModule {
    var queue: seq<Command>

    constructor ()
      ensures queue == []
    {
      queue := [];
    }

    /** `add_command`: append at the tail, nothing else changes. */
    method AddCommand(c: Command)
      modifies this
      ensures queue == old(queue) + [c]
    {
      queue := queue + [c];
    }

    /** `process_all`: print the header, execute every queued command in FIFO
        order, then clear the queue. */
    method ProcessAll() returns (out: seq<Effect>)
      modifies this
      ensures out == [ProcessingQueue] + Executions(old(queue))
      ensures queue == []
    {
      out := [ProcessingQueue];
      var i := 0;
      while i < |queue|
        invariant 0 <= i <= |queue|
        invariant out == [ProcessingQueue] + Executions(queue[..i])
      {
        assert queue[..i + 1][..i] == queue[..i];
        out := out + [Executed(queue[i])];
        i := i + 1;
      }
      assert queue[..i] == queue;
      queue := [];
    }
  }

  /** One `add_command` call: which executor received which command. */
  datatype Enqueue = Enqueue(target: ExecutionModule, command: Command)

  /** The commands of `enq` that went to executor `x`, in the order they were added. */
  function CommandsFor(enq: seq<Enqueue>, x: ExecutionModule): seq<Command> {
    if enq == [] then []
    else CommandsFor(enq[..|enq| - 1], x)
         + (if enq[|enq| - 1].target == x then [enq[|enq| - 1].command] else [])
  }

  lemma {:induction false} CommandsForAppend(a: seq<Enqueue>, b: seq<Enqueue>, x: ExecutionModule)
    ensures CommandsFor(a + b, x) == CommandsFor(a, x) + CommandsFor(b, x)
  {
    if b != [] {
      var init := b[..|b| - 1];
      CommandsForAppend(a, init, x);
      assert (a + b)[..|a + b| - 1] == a + init;
    } else {
      assert a + b == a;
    }
  }

  /** A sequence of appends none of which targets `x` leaves `x`'s queue alone. */
  lemma {:induction false} CommandsForElsewhere(enq: seq<Enqueue>, x: ExecutionModule)
    requires forall k :: 0 <= k < |enq| ==> enq[k].target != x
    ensures CommandsFor(enq, x) == []
  {
    if enq != [] {
      CommandsForElsewhere(enq[..|enq| - 1], x);
    }
  }
}
