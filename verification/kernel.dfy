/** The UOR kernel: a foundation model the stack treats like any other. */
module Kernel {
  import opened Errors
  import opened Manifolds
  import opened FoundationModels

  /** `UorKernel` has no fields; `UorKernel::new` and its default are this one value. */
  datatype UorKernel = UorKernel

  /** `UorKernel::process_manifold`: returns its input unchanged. */
  function KernelProcessManifold(kernel: UorKernel, input: Graph): (r: (UorKernel, UorResult<Graph>))
    ensures r.0 == kernel && r.1 == Ok(input)
  {
    (kernel, Ok(input))
  }

  lemma KernelIsIdentity(kernel: UorKernel)
    ensures IsIdentity(KernelProcessManifold, kernel)
  {
  }
}
