/** The cognitive stack: an ordered, fail-fast pipeline of foundation models, then the
    scheduler, the operator and the embedding, over one graph and one cortex. */
module CognitiveStacks {
  import opened Errors
  import opened Manifolds
  import opened Cortex
  import opened FoundationModels
  import opened Kernel
  import opened Embedding
  import opened Operators
  import opened Concurrency

  /** One stage call of a run: what the stage was given and what it answered. */
  datatype Invocation =
    | ModelCall(index: nat, input: Graph, output: UorResult<Graph>)
    | ScheduleCall(input: Graph, scheduled: UorResult<()>)
    | ApplyCall(input: Graph, output: UorResult<Graph>)
    | EmbedCall(input: Graph, embedded: UorResult<seq<Quaternion>>)

  /** The place of a call in the fixed stage order of a stack with `n` models:
      models `0..n`, then the scheduler, the operator and the embedding. */
  function Position(c: Invocation, n: nat): nat {
    match c
    case ModelCall(i, _, _) => i
    case ScheduleCall(_, _) => n
    case ApplyCall(_, _) => n + 1
    case EmbedCall(_, _) => n + 2
  }

  /** The error a call returned, if any. */
  function Failure(c: Invocation): Option<UorError> {
    match c
    case ModelCall(_, _, o) => if o.Err? then Some(o.error) else None
    case ScheduleCall(_, o) => if o.Err? then Some(o.error) else None
    case ApplyCall(_, o) => if o.Err? then Some(o.error) else None
    case EmbedCall(_, o) => if o.Err? then Some(o.error) else None
  }

  /** The graph a successful transforming call produced. */
  function Output(c: Invocation): Option<Graph> {
    match c
    case ModelCall(_, _, o) => if o.Ok? then Some(o.value) else None
    case ApplyCall(_, o) => if o.Ok? then Some(o.value) else None
    case _ => None
  }

  /** The call's answer is what its stage answers on that input, with the model state
      and the cortex the stack held before the run. */
  ghost predicate Answered<M>(c: Invocation, process: ProcessManifold<M>, models: seq<M>,
                              scheduler: Scheduler, operator: HpcOperator,
                              embedding: QuaternionEmbedding, cortex: MemoryCortex)
  {
    match c
    case ModelCall(i, g, o) => i < |models| && o == process(models[i], g).1
    case ScheduleCall(g, o) => o == scheduler(g)
    case ApplyCall(g, o) => o == operator(g)
    case EmbedCall(g, o) => o == embedding(g, cortex).1
  }

  function Last<T>(s: seq<T>): T
    requires s != []
  {
    s[|s| - 1]
  }

  /** The state after the model loop: the models' states, the graph (or the first error)
      and the calls made. */
  datatype ModelsRun<M> = ModelsRun(models: seq<M>, result: UorResult<Graph>, trace: seq<Invocation>)

  /** The model loop from index `i` on, as the `for` loop with `?` runs it. */
  function RunModels<M>(process: ProcessManifold<M>, models: seq<M>, i: nat, g: Graph): (run: ModelsRun<M>)
    requires i <= |models|
    ensures |run.models| == |models|
    decreases |models| - i
  {
    if i == |models| then ModelsRun(models, Ok(g), [])
    else
      var step := process(models[i], g);
      var models' := models[i := step.0];
      var call := ModelCall(i, g, step.1);
      if step.1.Err? then ModelsRun(models', Err(step.1.error), [call])
      else
        var rest := RunModels(process, models', i + 1, step.1.value);
        ModelsRun(rest.models, rest.result, [call] + rest.trace)
  }

  /** What the scheduler, operator and embedding steps leave: the cortex, their calls and
      the outcome. */
  datatype StagesRun = StagesRun(cortex: MemoryCortex, trace: seq<Invocation>, result: UorResult<()>)

  /** Steps 2 to 4 of `process` on the graph `g` the models produced. */
  function RunStages(scheduler: Scheduler, operator: HpcOperator, embedding: QuaternionEmbedding,
                     cortex: MemoryCortex, g: Graph): StagesRun
  {
    var s := scheduler(g);
    if s.Err? then StagesRun(cortex, [ScheduleCall(g, s)], Err(s.error))
    else
      var a := operator(g);
      if a.Err? then StagesRun(cortex, [ScheduleCall(g, s), ApplyCall(g, a)], Err(a.error))
      else
        var e := embedding(a.value, cortex);
        StagesRun(e.0, [ScheduleCall(g, s), ApplyCall(g, a), EmbedCall(a.value, e.1)],
                  if e.1.Err? then Err(e.1.error) else Ok(()))
  }

  /** The state after a whole run of `process`. */
  datatype Run<M> = Run(models: seq<M>, cortex: MemoryCortex, trace: seq<Invocation>, result: UorResult<()>)

  /** `CognitiveStack::process` as a function of the stack's fields and the input graph. */
  function Pipeline<M>(process: ProcessManifold<M>, models: seq<M>, scheduler: Scheduler,
                       operator: HpcOperator, embedding: QuaternionEmbedding,
                       cortex: MemoryCortex, manifold: Graph): Run<M>
  {
    var ms := RunModels(process, models, 0, manifold);
    if ms.result.Err? then Run(ms.models, cortex, ms.trace, Err(ms.result.error))
    else
      var st := RunStages(scheduler, operator, embedding, cortex, ms.result.value);
      Run(ms.models, st.cortex, ms.trace + st.trace, st.result)
  }

  /** The model loop calls model `i`, `i + 1`, ... in list order, each at most once, each
      with the state it held before the loop. */
  lemma {:induction false} RunModelsCallsInOrder<M>(process: ProcessManifold<M>, models: seq<M>, i: nat, g: Graph)
    requires i <= |models|
    ensures var run := RunModels(process, models, i, g);
      && |run.trace| <= |models| - i
      && forall k :: 0 <= k < |run.trace| ==>
           && run.trace[k].ModelCall?
           && run.trace[k].index == i + k
           && run.trace[k].output == process(models[i + k], run.trace[k].input).1
    decreases |models| - i
  {
    if i < |models| {
      var step := process(models[i], g);
      if step.1.Ok? {
        var models' := models[i := step.0];
        RunModelsCallsInOrder(process, models', i + 1, step.1.value);
        var rest := RunModels(process, models', i + 1, step.1.value);
        var run := RunModels(process, models, i, g);
        assert run.trace == [ModelCall(i, g, step.1)] + rest.trace;
        forall k | 0 < k < |run.trace|
          ensures && run.trace[k].ModelCall?
                  && run.trace[k].index == i + k
                  && run.trace[k].output == process(models[i + k], run.trace[k].input).1
        {
          assert run.trace[k] == rest.trace[k - 1];
        }
      }
    }
  }

  /** The model loop hands model `i` the graph `g`, each later model the output of the one
      before, stops at the first error and returns it unchanged, and otherwise returns the
      last model's output after calling every remaining model. */
  lemma {:induction false} RunModelsChains<M>(process: ProcessManifold<M>, models: seq<M>, i: nat, g: Graph)
    requires i <= |models|
    ensures forall k :: 0 <= k < |RunModels(process, models, i, g).trace| ==>
              RunModels(process, models, i, g).trace[k].ModelCall?
    ensures var run := RunModels(process, models, i, g);
      && (run.trace == [] <==> i == |models|)
      && (run.trace == [] ==> run.result == Ok(g))
      && (run.trace != [] ==> run.trace[0].input == g && run.trace[|run.trace| - 1].output == run.result)
      && (forall k :: 0 < k < |run.trace| ==> run.trace[k - 1].output == Ok(run.trace[k].input))
      && (run.result.Ok? ==> |run.trace| == |models| - i)
    decreases |models| - i
  {
    if i < |models| {
      var step := process(models[i], g);
      if step.1.Ok? {
        var models' := models[i := step.0];
        RunModelsChains(process, models', i + 1, step.1.value);
        var rest := RunModels(process, models', i + 1, step.1.value);
        var run := RunModels(process, models, i, g);
        assert run.trace == [ModelCall(i, g, step.1)] + rest.trace;
        forall k | 0 < k < |run.trace|
          ensures run.trace[k - 1].output == Ok(run.trace[k].input)
        {
          assert run.trace[k] == rest.trace[k - 1];
          if k > 1 {
            assert run.trace[k - 1] == rest.trace[k - 2];
          }
        }
      }
    }
  }

  /** After the model loop, each model that ran holds the state its call left it in, and
      every model the loop did not reach keeps its state. */
  lemma {:induction false} RunModelsStates<M>(process: ProcessManifold<M>, models: seq<M>, i: nat, g: Graph)
    requires i <= |models|
    ensures var run := RunModels(process, models, i, g);
      && |run.trace| <= |models| - i
      && forall j :: 0 <= j < |models| ==>
           run.models[j] == if i <= j < i + |run.trace|
                            then process(models[j], run.trace[j - i].input).0
                            else models[j]
    decreases |models| - i
  {
    if i < |models| {
      var step := process(models[i], g);
      if step.1.Ok? {
        var models' := models[i := step.0];
        RunModelsStates(process, models', i + 1, step.1.value);
        var rest := RunModels(process, models', i + 1, step.1.value);
        var run := RunModels(process, models, i, g);
        assert run.trace == [ModelCall(i, g, step.1)] + rest.trace;
        forall j | 0 <= j < |models|
          ensures run.models[j] == if i <= j < i + |run.trace|
                                   then process(models[j], run.trace[j - i].input).0
                                   else models[j]
        {
          if i < j < i + |run.trace| {
            assert run.trace[j - i] == rest.trace[j - i - 1];
          }
        }
      }
    }
  }

  /** Steps 2 to 4 make one to three calls, scheduler, operator, embedding in that order, and
      stop at the first error, which they return unchanged. */
  lemma RunStagesOutcome(scheduler: Scheduler, operator: HpcOperator, embedding: QuaternionEmbedding,
                         cortex: MemoryCortex, g: Graph, n: nat)
    ensures var st := RunStages(scheduler, operator, embedding, cortex, g);
      && 1 <= |st.trace| <= 3
      && (forall k :: 0 <= k < |st.trace| ==> Position(st.trace[k], n) == n + k)
      && (forall k :: 0 <= k < |st.trace| - 1 ==> Failure(st.trace[k]) == None)
      && (st.result.Err? ==> Failure(st.trace[|st.trace| - 1]) == Some(st.result.error))
      && (st.result.Ok? <==> |st.trace| == 3 && Failure(st.trace[2]) == None)
  {
  }

  /** Steps 2 to 4 call the scheduler on `g`, the operator on that same graph and the embedding
      on the operator's output; only the embedding changes the cortex. */
  lemma RunStagesFlow(scheduler: Scheduler, operator: HpcOperator, embedding: QuaternionEmbedding,
                      cortex: MemoryCortex, g: Graph)
    ensures var st := RunStages(scheduler, operator, embedding, cortex, g);
      && 1 <= |st.trace| <= 3
      && st.trace[0] == ScheduleCall(g, scheduler(g))
      && (|st.trace| > 1 ==> st.trace[1] == ApplyCall(g, operator(g)))
      && (|st.trace| > 2 ==> Output(st.trace[1]) == Some(st.trace[2].input))
      && (|st.trace| > 2 ==> st.trace[2] == EmbedCall(st.trace[2].input, embedding(st.trace[2].input, cortex).1))
      && (|st.trace| == 3 ==> st.cortex == embedding(st.trace[2].input, cortex).0)
      && (|st.trace| < 3 ==> st.cortex == cortex)
  {
  }

  /** Stage order: the calls of a run follow the fixed order with no gap and no repeat, so
      model `i` runs at most once and only after models `0..i`, and nothing runs twice. */
  lemma ProcessRunsStagesInOrder<M>(process: ProcessManifold<M>, models: seq<M>, scheduler: Scheduler,
                                    operator: HpcOperator, embedding: QuaternionEmbedding,
                                    cortex: MemoryCortex, manifold: Graph)
    ensures var run := Pipeline(process, models, scheduler, operator, embedding, cortex, manifold);
      && 0 < |run.trace| <= |models| + 3
      && forall k :: 0 <= k < |run.trace| ==> Position(run.trace[k], |models|) == k
  {
    RunModelsCallsInOrder(process, models, 0, manifold);
    RunModelsChains(process, models, 0, manifold);
    var ms := RunModels(process, models, 0, manifold);
    var run := Pipeline(process, models, scheduler, operator, embedding, cortex, manifold);
    if ms.result.Err? {
      assert run.trace == ms.trace;
    } else {
      var st := RunStages(scheduler, operator, embedding, cortex, ms.result.value);
      RunStagesOutcome(scheduler, operator, embedding, cortex, ms.result.value, |models|);
      var n := |ms.trace|;
      assert run.trace == ms.trace + st.trace && n == |models|;
      forall k | 0 <= k < |run.trace| ensures Position(run.trace[k], |models|) == k {
        if k < n {
          assert run.trace[k] == ms.trace[k];
        } else {
          assert run.trace[k] == st.trace[k - n];
        }
      }
    }
  }

  /** Fail-fast: every call but the last succeeded; the run fails exactly when the last call
      failed, with that call's error unchanged; it succeeds exactly when all `N + 3` calls did. */
  lemma ProcessFailsFast<M>(process: ProcessManifold<M>, models: seq<M>, scheduler: Scheduler,
                            operator: HpcOperator, embedding: QuaternionEmbedding,
                            cortex: MemoryCortex, manifold: Graph)
    ensures var run := Pipeline(process, models, scheduler, operator, embedding, cortex, manifold);
      && run.trace != []
      && (forall k :: 0 <= k < |run.trace| - 1 ==> Failure(run.trace[k]) == None)
      && (run.result.Err? <==> Failure(Last(run.trace)).Some?)
      && (run.result.Err? ==> Failure(Last(run.trace)) == Some(run.result.error))
      && (run.result.Ok? <==> |run.trace| == |models| + 3 && Failure(Last(run.trace)) == None)
  {
    RunModelsCallsInOrder(process, models, 0, manifold);
    RunModelsChains(process, models, 0, manifold);
    var ms := RunModels(process, models, 0, manifold);
    var run := Pipeline(process, models, scheduler, operator, embedding, cortex, manifold);
    var n := |ms.trace|;
    forall k | 0 <= k < n && (k < n - 1 || ms.result.Ok?) ensures Failure(ms.trace[k]) == None {
      if k < n - 1 {
        assert ms.trace[k].output == Ok(ms.trace[k + 1].input);
      }
    }
    if ms.result.Err? {
      assert run.trace == ms.trace;
    } else {
      var st := RunStages(scheduler, operator, embedding, cortex, ms.result.value);
      RunStagesOutcome(scheduler, operator, embedding, cortex, ms.result.value, |models|);
      assert run.trace == ms.trace + st.trace;
      assert Last(run.trace) == st.trace[|st.trace| - 1];
      forall k | 0 <= k < |run.trace| - 1 ensures Failure(run.trace[k]) == None {
        if k < n {
          assert run.trace[k] == ms.trace[k];
        } else {
          assert run.trace[k] == st.trace[k - n];
        }
      }
    }
  }

  /** Data flow: the first stage gets the input graph, each model and the scheduler get the
      previous model's output, the operator gets the very graph the scheduler saw, and the
      embedding gets the operator's output. */
  lemma ProcessForwardsManifold<M>(process: ProcessManifold<M>, models: seq<M>, scheduler: Scheduler,
                                   operator: HpcOperator, embedding: QuaternionEmbedding,
                                   cortex: MemoryCortex, manifold: Graph)
    ensures var run := Pipeline(process, models, scheduler, operator, embedding, cortex, manifold);
      && run.trace != []
      && run.trace[0].input == manifold
      && (forall k :: 0 < k < |run.trace| && !run.trace[k].ApplyCall? ==>
            Output(run.trace[k - 1]) == Some(run.trace[k].input))
      && (forall k :: 0 < k < |run.trace| && run.trace[k].ApplyCall? ==>
            run.trace[k - 1].ScheduleCall? && run.trace[k - 1].input == run.trace[k].input)
  {
    RunModelsChains(process, models, 0, manifold);
    var ms := RunModels(process, models, 0, manifold);
    var run := Pipeline(process, models, scheduler, operator, embedding, cortex, manifold);
    if ms.result.Err? {
      assert run.trace == ms.trace;
    } else {
      var g := ms.result.value;
      var st := RunStages(scheduler, operator, embedding, cortex, g);
      RunStagesFlow(scheduler, operator, embedding, cortex, g);
      assert run.trace == ms.trace + st.trace;
      var n := |ms.trace|;
      if n > 0 {
        assert run.trace[0] == ms.trace[0];
        assert run.trace[n - 1] == ms.trace[n - 1];
      }
      forall k | 0 < k < |run.trace| && !run.trace[k].ApplyCall?
        ensures Output(run.trace[k - 1]) == Some(run.trace[k].input)
      {
        if k < n {
          assert run.trace[k - 1] == ms.trace[k - 1] && run.trace[k] == ms.trace[k];
        } else if k > n {
          assert run.trace[k - 1] == st.trace[k - 1 - n] && run.trace[k] == st.trace[k - n];
        }
      }
      forall k | 0 < k < |run.trace| && run.trace[k].ApplyCall?
        ensures run.trace[k - 1].ScheduleCall? && run.trace[k - 1].input == run.trace[k].input
      {
        if k >= n {
          assert run.trace[k - 1] == st.trace[k - 1 - n] && run.trace[k] == st.trace[k - n];
        }
      }
    }
  }

  /** Every recorded call is a genuine call of its stage, made with the model state the
      stack held before the run. */
  lemma ProcessCallsEachStage<M>(process: ProcessManifold<M>, models: seq<M>, scheduler: Scheduler,
                                 operator: HpcOperator, embedding: QuaternionEmbedding,
                                 cortex: MemoryCortex, manifold: Graph)
    ensures var run := Pipeline(process, models, scheduler, operator, embedding, cortex, manifold);
      forall k :: 0 <= k < |run.trace| ==>
        Answered(run.trace[k], process, models, scheduler, operator, embedding, cortex)
  {
    RunModelsCallsInOrder(process, models, 0, manifold);
    var ms := RunModels(process, models, 0, manifold);
    var run := Pipeline(process, models, scheduler, operator, embedding, cortex, manifold);
    if ms.result.Err? {
      assert run.trace == ms.trace;
    } else {
      var st := RunStages(scheduler, operator, embedding, cortex, ms.result.value);
      RunStagesFlow(scheduler, operator, embedding, cortex, ms.result.value);
      assert run.trace == ms.trace + st.trace;
      var n := |ms.trace|;
      forall k | 0 <= k < |run.trace|
        ensures Answered(run.trace[k], process, models, scheduler, operator, embedding, cortex)
      {
        if k < n {
          assert run.trace[k] == ms.trace[k];
        } else {
          assert run.trace[k] == st.trace[k - n];
        }
      }
    }
  }

  /** `&mut self` of the models: those that ran hold the state their own call left them in,
      the others keep theirs. */
  lemma ProcessUpdatesModels<M>(process: ProcessManifold<M>, models: seq<M>, scheduler: Scheduler,
                                operator: HpcOperator, embedding: QuaternionEmbedding,
                                cortex: MemoryCortex, manifold: Graph)
    ensures var run := Pipeline(process, models, scheduler, operator, embedding, cortex, manifold);
      && |run.models| == |models|
      && forall j :: 0 <= j < |models| ==>
           run.models[j] == if j < |run.trace| then process(models[j], run.trace[j].input).0
                            else models[j]
  {
    RunModelsStates(process, models, 0, manifold);
    RunModelsChains(process, models, 0, manifold);
    var ms := RunModels(process, models, 0, manifold);
    var run := Pipeline(process, models, scheduler, operator, embedding, cortex, manifold);
    if ms.result.Err? {
      assert run.trace == ms.trace;
    } else {
      var st := RunStages(scheduler, operator, embedding, cortex, ms.result.value);
      assert run.trace == ms.trace + st.trace;
      assert |ms.trace| == |models|;
      forall j | 0 <= j < |models|
        ensures run.models[j] == process(models[j], run.trace[j].input).0
      {
        assert run.trace[j] == ms.trace[j];
      }
    }
  }

  /** Only the embedding writes the cortex: a run that stopped before the embedding leaves it
      as it was, and one that reached it keeps what the embedding call left, even on failure. */
  lemma ProcessWritesCortexOnlyByEmbedding<M>(process: ProcessManifold<M>, models: seq<M>, scheduler: Scheduler,
                                              operator: HpcOperator, embedding: QuaternionEmbedding,
                                              cortex: MemoryCortex, manifold: Graph)
    ensures var run := Pipeline(process, models, scheduler, operator, embedding, cortex, manifold);
      && run.trace != []
      && (Last(run.trace).EmbedCall? ==> run.cortex == embedding(Last(run.trace).input, cortex).0)
      && (!Last(run.trace).EmbedCall? ==> run.cortex == cortex)
  {
    RunModelsChains(process, models, 0, manifold);
    var ms := RunModels(process, models, 0, manifold);
    var run := Pipeline(process, models, scheduler, operator, embedding, cortex, manifold);
    if ms.result.Err? {
      assert run.trace == ms.trace;
      assert Last(run.trace) == ms.trace[|ms.trace| - 1];
    } else {
      var st := RunStages(scheduler, operator, embedding, cortex, ms.result.value);
      RunStagesFlow(scheduler, operator, embedding, cortex, ms.result.value);
      assert run.trace == ms.trace + st.trace;
      assert Last(run.trace) == st.trace[|st.trace| - 1];
    }
  }

  /** The model loop over identity models hands every model the same graph and ends on it. */
  lemma {:induction false} IdentityModelsPassThrough<M>(process: ProcessManifold<M>, models: seq<M>, i: nat, g: Graph)
    requires i <= |models|
    requires forall j :: i <= j < |models| ==> IsIdentity(process, models[j])
    ensures var run := RunModels(process, models, i, g);
      && run.result == Ok(g)
      && forall k :: 0 <= k < |run.trace| ==> run.trace[k].input == g
    decreases |models| - i
  {
    if i < |models| {
      var step := process(models[i], g);
      assert step.1 == Ok(g);
      var models' := models[i := step.0];
      IdentityModelsPassThrough(process, models', i + 1, g);
    }
  }

  /** A stack whose models and operator hand back their input, and whose scheduler and
      embedding succeed, succeeds and shows every stage the input graph unchanged: node and
      edge counts are preserved. */
  lemma IdentityStackPreservesManifold<M>(process: ProcessManifold<M>, models: seq<M>, scheduler: Scheduler,
                                          operator: HpcOperator, embedding: QuaternionEmbedding,
                                          cortex: MemoryCortex, manifold: Graph)
    requires forall j :: 0 <= j < |models| ==> IsIdentity(process, models[j])
    requires scheduler(manifold).Ok?
    requires operator(manifold) == Ok(manifold)
    requires embedding(manifold, cortex).1.Ok?
    ensures var run := Pipeline(process, models, scheduler, operator, embedding, cortex, manifold);
      && run.result == Ok(())
      && |run.trace| == |models| + 3
      && (forall k :: 0 <= k < |run.trace| ==> run.trace[k].input == manifold)
      && |Last(run.trace).input.nodes| == |manifold.nodes|
      && |Last(run.trace).input.edges| == |manifold.edges|
  {
    IdentityModelsPassThrough(process, models, 0, manifold);
    RunModelsChains(process, models, 0, manifold);
  }

  /** A stack of `NullFoundationModel`s with the default scheduler, operator and embedding
      succeeds on any graph, shows every stage that graph, and leaves the cortex as it was. */
  lemma NullStackRoundTrip(models: seq<NullFoundationModel>, cortex: MemoryCortex, manifold: Graph)
    ensures var run := Pipeline(NullProcessManifold, models, RoundRobinSchedule, ExampleApply,
                                DefaultEmbedManifold, cortex, manifold);
      && run.result == Ok(())
      && (forall k :: 0 <= k < |run.trace| ==> run.trace[k].input == manifold)
      && run.cortex == cortex
  {
    forall j | 0 <= j < |models| ensures IsIdentity(NullProcessManifold, models[j]) {
      NullIsIdentity(models[j]);
    }
    IdentityStackPreservesManifold(NullProcessManifold, models, RoundRobinSchedule, ExampleApply,
                                   DefaultEmbedManifold, cortex, manifold);
  }

  /** The same for a stack of `UorKernel`s: the kernel gets no special treatment. */
  lemma KernelStackRoundTrip(models: seq<UorKernel>, cortex: MemoryCortex, manifold: Graph)
    ensures var run := Pipeline(KernelProcessManifold, models, RoundRobinSchedule, ExampleApply,
                                DefaultEmbedManifold, cortex, manifold);
      && run.result == Ok(())
      && (forall k :: 0 <= k < |run.trace| ==> run.trace[k].input == manifold)
      && run.cortex == cortex
  {
    forall j | 0 <= j < |models| ensures IsIdentity(KernelProcessManifold, models[j]) {
      KernelIsIdentity(models[j]);
    }
    IdentityStackPreservesManifold(KernelProcessManifold, models, RoundRobinSchedule, ExampleApply,
                                   DefaultEmbedManifold, cortex, manifold);
  }

  /** `CognitiveStack<M>`: the models, the three capability objects and the cortex. */
  class CognitiveStack<M> {
    var models: seq<M>
    var embedding: QuaternionEmbedding
    var operator: HpcOperator
    var scheduler: Scheduler
    var cortex: MemoryCortex
    /** `M`'s implementation of `FoundationModel`, fixed by the type. */
    const processManifold: ProcessManifold<M>

    /** `Default for CognitiveStack<M>`: one default model (`defaultModel` is `M::default()`),
        the default capabilities and a fresh cortex. */
    constructor Default(defaultModel: M, processManifold: ProcessManifold<M>)
      ensures models == [defaultModel]
      ensures this.processManifold == processManifold
      ensures embedding == DefaultEmbedManifold && operator == ExampleApply && scheduler == RoundRobinSchedule
      ensures cortex == New144() && |cortex.references| == ReferenceCount
    {
      models := [defaultModel];
      this.processManifold := processManifold;
      embedding := DefaultEmbedManifold;
      operator := ExampleApply;
      scheduler := RoundRobinSchedule;
      cortex := Cortex.Default();
    }

    /** `CognitiveStack::new_default`: the given models, unchanged, with the default
        capabilities and a fresh cortex. */
    constructor NewDefault(models: seq<M>, processManifold: ProcessManifold<M>)
      ensures this.models == models
      ensures this.processManifold == processManifold
      ensures embedding == DefaultEmbedManifold && operator == ExampleApply && scheduler == RoundRobinSchedule
      ensures cortex == New144() && |cortex.references| == ReferenceCount
    {
      this.models := models;
      this.processManifold := processManifold;
      embedding := DefaultEmbedManifold;
      operator := ExampleApply;
      scheduler := RoundRobinSchedule;
      cortex := Cortex.Default();
    }

    /** `CognitiveStack::process`. `trace` records each stage call as it happens. */
    method Process(manifold: Graph) returns (r: UorResult<()>, ghost trace: seq<Invocation>)
      modifies this
      ensures embedding == old(embedding) && operator == old(operator) && scheduler == old(scheduler)
      ensures var run := Pipeline(processManifold, old(models), scheduler, operator, embedding,
                                  old(cortex), manifold);
        && r == run.result
        && trace == run.trace
        && models == run.models
        && cortex == run.cortex
    {
      ghost var spec := RunModels(processManifold, models, 0, manifold);
      var g := manifold;
      var i := 0;
      trace := [];
      while i < |models|
        invariant i <= |models|
        invariant embedding == old(embedding) && operator == old(operator) && scheduler == old(scheduler)
        invariant cortex == old(cortex)
        invariant var rest := RunModels(processManifold, models, i, g);
          spec == ModelsRun(rest.models, rest.result, trace + rest.trace)
        decreases |models| - i
      {
        var step := processManifold(models[i], g);
        models := models[i := step.0];
        trace := trace + [ModelCall(i, g, step.1)];
        if step.1.Err? {
          r := Err(step.1.error);
          return;
        }
        g := step.1.value;
        i := i + 1;
      }
      var s := scheduler(g);
      trace := trace + [ScheduleCall(g, s)];
      if s.Err? {
        r := Err(s.error);
        return;
      }
      var a := operator(g);
      trace := trace + [ApplyCall(g, a)];
      if a.Err? {
        r := Err(a.error);
        return;
      }
      g := a.value;
      var e := embedding(g, cortex);
      cortex := e.0;
      trace := trace + [EmbedCall(g, e.1)];
      if e.1.Err? {
        r := Err(e.1.error);
        return;
      }
      r := Ok(());
    }
  }

  /** A caller's view: build the two-node, one-edge manifold through `Manifold`, run it
      through a stack of kernels built by `new_default`, and observe that the run succeeds
      and the graph the embedding saw still has two nodes and one adjacency entry. */
  method ProcessTwoNodeManifold() returns (r: UorResult<()>, ghost nodeCount: nat, ghost edgeCount: nat)
    ensures r == Ok(())
    ensures nodeCount == 2 && edgeCount == 1
  {
    var manifold := new Manifold();
    manifold.AddNode(ManifoldNode("N1", "D1"));
    manifold.AddNode(ManifoldNode("N2", "D2"));
    var added := manifold.AddEdge("N1", "N2");
    assert added.Ok?;
    var input := manifold.Value();
    assert input.nodes.Keys == {"N1", "N2"} && input.edges.Keys == {"N1"};
    var stack := new CognitiveStack.NewDefault([UorKernel, UorKernel], KernelProcessManifold);
    ghost var trace;
    r, trace := stack.Process(input);
    KernelStackRoundTrip([UorKernel, UorKernel], Cortex.New144(), input);
    ProcessRunsStagesInOrder(KernelProcessManifold, [UorKernel, UorKernel], RoundRobinSchedule,
                             ExampleApply, DefaultEmbedManifold, Cortex.New144(), input);
    ghost var seen := trace[|trace| - 1].input;
    nodeCount, edgeCount := |seen.nodes|, |seen.edges|;
  }
}
