/** A run of the kernel, from boot, that loses a message block and a queue block for good: a queue is destroyed as a
    plain resource while a message is in it. */
module LossRun {
  import opened Constants
  import opened Sequences
  import opened KernelSteps
  import opened ResourceKernels
  import opened StaleRun
  import R = Resources
  import L = LostBlocks

  /** Nothing is listed, and block 0 is stranded with its message. */
  function Destroyed(): R.Table {
    R.Table([], map[], map[], map[], map[0 := R.Files(1, [])], Blocks(), Blocks(), Blocks()[1..], Counts()[0 := 1],
            MAX_NUM_RESOURCES - 1, MAX_NUM_RESOURCES - 1, 1, map[0 := [7]], 1)
  }

  lemma Destroy5()
    ensures OutcomeDefined(Closed(), 0, DestroyResource(5)) && L.LosesMessages(Closed(), DestroyResource(5))
    ensures OutcomeOf(Closed(), 0, DestroyResource(5)) == R.Outcome(Destroyed(), 0)
  {
    BlocksBegin();
    hide Upto;
    Same(R.Destroy(Closed(), 5).table, Destroyed());
  }

  function LossCalls(): seq<Event> {
    [MqOpen(5, DSOS_MQ, DSOS_CREATE), MqSend(0, 7), MqClose(0), DestroyResource(5)]
  }

  /** Until the fourth call all blocks are free or in use. Then nothing is listed, and still one message block and one
      queue block are missing from their pools. */
  lemma QueueLeaks() returns (run: seq<State>)
    ensures IsRun(run, LossCalls()) && run[0] == Booted()
    ensures L.LosesMessages(run[3].rs, LossCalls()[3])
    ensures L.MessagesKept(run[3].rs) && L.QueuesKept(run[3].rs)
    ensures var t := run[4].rs;
      && t.order == [] && t.messageFree == MAX_NUM_RESOURCES - 1 && |t.queuePool| == MAX_NUM_RESOURCES - 1
      && !L.MessagesKept(t) && !L.QueuesKept(t) && L.OutOfReach(t, 0)
  {
    hide Step, Enabled, OutcomeDefined, OutcomeOf, Closed, Destroyed;
    var early := UntilClosed();
    Destroy5();
    TableStep(early[3], LossCalls()[3]);
    run := early + [Step(early[3], LossCalls()[3])];
    forall i | 0 <= i < 4 ensures Leads(run[i], LossCalls()[i], run[i + 1]) {
      if i < 3 {
        RunStep(early, Calls()[..3], i);
      }
    }
    BeforeAndAfter();
  }

  lemma BeforeAndAfter()
    ensures L.MessagesKept(Closed()) && L.QueuesKept(Closed()) && L.OutOfReach(Destroyed(), 0)
    ensures Destroyed().order == [] && Destroyed().messageFree == MAX_NUM_RESOURCES - 1
    ensures |Destroyed().queuePool| == MAX_NUM_RESOURCES - 1
    ensures !L.MessagesKept(Destroyed()) && !L.QueuesKept(Destroyed())
  {
    UptoFacts(MAX_NUM_RESOURCES);
    BlocksBegin();
    hide Upto;
    assert [5][1..] == [];
  }
}
