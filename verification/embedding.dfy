/** Embedding of a manifold into quaternions, writing to the cortex. */
module Embedding {
  import opened Errors
  import opened Manifolds
  import opened Cortex

  /** Components are the source's `f64` values (`Cortex.F64`); nothing computes on them. */
  datatype Quaternion = Quaternion(w: F64, x: F64, y: F64, z: F64)

  /** `QuaternionEmbedding::embed_manifold`: reads the graph, may write any cortex slot
      (`&mut MemoryCortex`), and yields the quaternions or an error. The cortex it returns
      is the one after the call, whatever the outcome, since writes through `&mut` stay. */
  type QuaternionEmbedding = (Graph, MemoryCortex) -> (MemoryCortex, UorResult<seq<Quaternion>>)

  const Identity: Quaternion := Quaternion(1.0, 0.0, 0.0, 0.0)

  /** `DefaultQuaternionEmbedding`: leaves the cortex alone and yields one identity quaternion. */
  function DefaultEmbedManifold(manifold: Graph, cortex: MemoryCortex): (r: (MemoryCortex, UorResult<seq<Quaternion>>))
    ensures r.0 == cortex
    ensures r.1.Ok? && |r.1.value| == 1 && r.1.value[0] == Identity
  {
    (cortex, Ok([Identity]))
  }
}
