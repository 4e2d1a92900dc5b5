/** HPC operators: structural rewrites applied after scheduling. */
module Operators {
  import opened Errors
  import opened Manifolds

  /** `HpcOperator::apply` (`&self`: the operator keeps no state the stack can see). */
  type HpcOperator = Graph -> UorResult<Graph>

  /** `ExampleOperator`: returns a clone of its input. */
  function ExampleApply(manifold: Graph): (r: UorResult<Graph>)
    ensures r.Ok? && r.value == manifold
  {
    Ok(manifold)
  }
}
