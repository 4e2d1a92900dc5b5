/** Concurrency: the scheduler stage, which sees the graph read-only. */
module Concurrency {
  import opened Errors
  import opened Manifolds

  /** `Scheduler::schedule`: takes the graph by shared reference and yields only success or an error. */
  type Scheduler = Graph -> UorResult<()>

  /** `RoundRobinScheduler`: dispatches nothing and always succeeds. */
  function RoundRobinSchedule(manifold: Graph): (r: UorResult<()>)
    ensures r.Ok?
  {
    Ok(())
  }
}
