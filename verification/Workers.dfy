// The consume loop of a worker (backend/app/workers/worker.py).
module Workers {
  import opened Domain
  import opened JobRows
  import opened Store
  import opened Evolution
  import opened Execution

  class Worker {
    const queue: JobQueue
    const execution: JobExecutionService

    constructor (queue: JobQueue, execution: JobExecutionService)
      ensures this.queue == queue && this.execution == execution
    {
      this.queue, this.execution := queue, execution;
    }

    /**
     * One round of the consume loop: the next message in priority order, if any, and its execution. The others
     * act between the pop and the claim: `claimed` is the table the claim finds.
     */
    method ConsumeOne() returns (consumed: Option<JobId>, ran: bool, ghost claimed: Table)
      requires execution.queue == queue && execution.db.Valid() && execution.Wired()
      modifies execution, queue, execution.db, execution.clock
      ensures execution.db.Valid()
      ensures Acted(execution.db.cfg, old(State(execution.db, queue)), State(execution.db, queue))
      ensures Evolved(execution.db.cfg, old(execution.db.rows), claimed)
      ensures Evolved(execution.db.cfg, claimed, execution.db.rows)
      ensures consumed.None? ==> !ran && execution.db.rows == old(execution.db.rows)
                                 && forall p :: old(queue.List(p)) == queue.List(p) == []
      ensures consumed.Some? ==>
                exists i :: 0 <= i < |PRIORITY_ORDER|
                            && old(queue.List(PRIORITY_ORDER[i])) != []
                            && consumed.value == old(queue.List(PRIORITY_ORDER[i])[|queue.List(PRIORITY_ORDER[i])| - 1])
                            && forall j :: 0 <= j < i ==> old(queue.List(PRIORITY_ORDER[j])) == []
      ensures ran <==> consumed.Some? && consumed.value in claimed && Claimable(claimed[consumed.value].job)
    {
      ran := false;
      ghost var start := State(execution.db, queue);
      claimed := execution.db.rows;
      EvolvedItself(execution.db.cfg, claimed);
      consumed := queue.Consume();
      ghost var popped := State(execution.db, queue);
      RowsAct(execution.db.cfg, start, popped);
      if consumed.Some? {
        execution.others.Act();
        ghost var found := State(execution.db, queue);
        claimed := execution.db.rows;
        ActedOn(execution.db.cfg, start, popped, found);
        ghost var run, resumed;
        ran, run, resumed := execution.Execute(consumed.value);
        ActedOn(execution.db.cfg, start, found, State(execution.db, queue));
      }
    }
  }
}
