/** Foundation models: the domain-transform stages of the stack. */
module FoundationModels {
  import opened Errors
  import opened Manifolds

  /** `FoundationModel::process_manifold` for a model whose own state has type `M`:
      the call may update the model (`&mut self`) and yields the transformed graph or an error. */
  type ProcessManifold<!M> = (M, Graph) -> (M, UorResult<Graph>)

  /** A model state on which the stage hands back every graph unchanged. */
  ghost predicate IsIdentity<M>(process: ProcessManifold<M>, model: M) {
    forall g :: process(model, g).1 == Ok(g)
  }

  datatype NullFoundationModel = NullFoundationModel

  /** `NullFoundationModel`: returns a clone of its input and keeps no state. */
  function NullProcessManifold(model: NullFoundationModel, input: Graph): (r: (NullFoundationModel, UorResult<Graph>))
    ensures r.0 == model && r.1 == Ok(input)
  {
    (model, Ok(input))
  }

  lemma NullIsIdentity(model: NullFoundationModel)
    ensures IsIdentity(NullProcessManifold, model)
  {
  }
}
