/** Fault-injection tests: per-method queues of instructions (testbench/database.py). */
module RetryTests {

  import opened Wrappers

  /** The instructions the model tells apart; the others are only queued and dequeued. */
  datatype Instruction =
    | ReturnAfterBytes(code: nat, kibibytes: nat)
    | BrokenStreamAfterBytes(kibibytes: nat)
    | Other(text: string)

  type Queues = map<string, seq<Instruction>>

  predicate AllEmpty(queues: Queues) {
    forall m :: m in queues ==> queues[m] == []
  }

  /** Each queue has lost a prefix, in order and once. */
  ghost predicate Divided(original: Queues, consumed: Queues, remaining: Queues) {
    && remaining.Keys == original.Keys == consumed.Keys
    && forall m :: m in original ==> consumed[m] + remaining[m] == original[m]
  }

  lemma MoveOne(original: Queues, consumed: Queues, remaining: Queues, m: string)
    requires Divided(original, consumed, remaining) && m in remaining && remaining[m] != []
    ensures Divided(original, consumed[m := consumed[m] + [remaining[m][0]]], remaining[m := remaining[m][1..]])
  {
    var queue := remaining[m];
    assert consumed[m] + queue == consumed[m] + [queue[0]] + queue[1..];
  }

  class RetryTest {
    var instructions: Queues
    var completed: bool
    const transport: string

    ghost const original: Queues
    ghost var consumed: Queues

    /**
     What every run of the operations keeps: each queue has lost a prefix, in order and once; the
     test is completed exactly when something was consumed and nothing is left.
     */
    ghost predicate Valid()
      reads this
    {
      && Divided(original, consumed, instructions)
      && (completed <==> !AllEmpty(consumed) && AllEmpty(instructions))
    }

    constructor (instructions: Queues, transport: string)
      ensures Valid()
      ensures this.instructions == instructions == original && this.transport == transport
      ensures forall m :: m in consumed ==> consumed[m] == []
      ensures !completed
    {
      this.instructions := instructions;
      this.completed := false;
      this.transport := transport;
      this.original := instructions;
      this.consumed := map m | m in instructions :: [];
    }

    function Queue(m: string): seq<Instruction>
      reads this
    {
      if m in instructions then instructions[m] else []
    }

    /** Whether some of the original instructions of a method are not consumed yet, for this transport. */
    method HasInstructions(m: string, transport: string) returns (b: bool)
      requires Valid()
      ensures b <==> m in original && |consumed[m]| < |original[m]| && this.transport == transport
      ensures b <==> Queue(m) != [] && this.transport == transport
    {
      assert m in original ==> |consumed[m]| + |instructions[m]| == |original[m]|;
      b := |Queue(m)| > 0 && this.transport == transport;
    }

    /** The first of the original instructions that is not consumed yet; it is not consumed by looking. */
    method PeekNextInstruction(m: string) returns (next: Option<Instruction>)
      requires Valid()
      ensures next == if m in original && |consumed[m]| < |original[m]| then Some(original[m][|consumed[m]|]) else None
      ensures next == if Queue(m) == [] then None else Some(Queue(m)[0])
    {
      assert m in original ==> consumed[m] + instructions[m] == original[m];
      if m in instructions && instructions[m] != [] {
        return Some(instructions[m][0]);
      }
      return None;
    }

    method DequeueNextInstruction(m: string) returns (next: Option<Instruction>)
      requires Valid()
      modifies this
      ensures Valid()
      ensures old(Queue(m)) == [] ==> next.None? && instructions == old(instructions) && consumed == old(consumed)
                                      && completed == old(completed)
      ensures old(Queue(m)) != [] ==>
                && next == Some(old(Queue(m))[0])
                && instructions == old(instructions)[m := old(Queue(m))[1..]]
                && consumed == old(consumed)[m := old(consumed)[m] + [next.value]]
    {
      if m !in instructions || instructions[m] == [] {
        return None;
      }
      var queue := instructions[m];
      next := Some(queue[0]);
      MoveOne(original, consumed, instructions, m);
      instructions := instructions[m := queue[1..]];
      consumed := consumed[m := consumed[m] + [queue[0]]];
      assert consumed[m] != [];
      var instructionsLeft := InstructionsLeft();
      if instructionsLeft == 0 {
        completed := true;
      }
    }

    method InstructionsLeft() returns (left: nat)
      ensures left == 0 <==> AllEmpty(instructions)
    {
      var pending := instructions.Keys;
      left := 0;
      while pending != {}
        invariant pending <= instructions.Keys
        invariant left == 0 <==> forall k :: k in instructions.Keys - pending ==> instructions[k] == []
        decreases |pending|
      {
        var key :| key in pending;
        left := left + |instructions[key]|;
        pending := pending - {key};
      }
    }
  }
}
