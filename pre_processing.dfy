/** What `PreProcessorExecutor` computes: each resource of a group is read, run through
    the chain of pre-processors that apply to it, and the results are concatenated in
    group order, either one resource after another or by one task per resource whose
    results are read back in resource order. The functions here are the specification the
    executor's methods are proved against. */
module PreProcessing {
  import opened Exceptions

  datatype ResourceType = Js | Css

  datatype Resource = Resource(uri: string, resourceType: ResourceType, minimize: bool)

  datatype Group = Group(name: string, resources: seq<Resource>)

  /** What one `process(resource, reader, writer)` call does: it writes `output` and
      returns, or throws `error` after having written `partial`. */
  datatype ProcessOutcome = Wrote(output: string) | Threw(error: Exc, partial: string)

  /** A ResourceProcessor: whether its class carries `@Minimize`, and what it does. */
  datatype Processor = Processor(minimizeAnnotated: bool, process: (Resource, string) -> ProcessOutcome)

  /** The two WroConfiguration flags read here. */
  datatype WroConfiguration = WroConfiguration(ignoreMissingResources: bool, parallelPreprocessing: bool)

  /** The injected collaborators: the resource locator (the located stream, read to a
      string, or the exception raised on the way), the processors factory's
      pre-processors, and `ProcessorsUtils.filterProcessorsToApply`. */
  datatype Collaborators = Collaborators(
    locate: string -> Result<string>,
    preProcessors: seq<Processor>,
    filterProcessorsToApply: (bool, ResourceType, seq<Processor>) -> seq<Processor>)

  function Last<T>(s: seq<T>): T
    requires s != []
  {
    s[|s| - 1]
  }

  function Concat(parts: seq<string>): string
    decreases |parts|
  {
    if parts == [] then "" else Concat(parts[..|parts| - 1]) + Last(parts)
  }

  // ---------------------------------------------------------------------------
  // getResourceContent
  // ---------------------------------------------------------------------------

  /** `getResourceContent`: the located content; an IOException becomes the empty string
      when missing resources are ignored and is rethrown otherwise; any other exception
      propagates. */
  function ResourceContent(env: Collaborators, config: WroConfiguration, resource: Resource): (r: Result<string>)
    ensures !config.ignoreMissingResources ==> r == env.locate(resource.uri)
    ensures config.ignoreMissingResources ==> !(r.Failure? && r.error.IOException?)
    ensures r.Failure? ==> r == env.locate(resource.uri)
    ensures r.Success? ==> r == env.locate(resource.uri) || r.value == ""
    ensures env.locate(resource.uri).Success? ==> r == env.locate(resource.uri)
    ensures r.Failure? <==>
              env.locate(resource.uri).Failure? &&
              !(env.locate(resource.uri).error.IOException? && config.ignoreMissingResources)
  {
    match env.locate(resource.uri)
    case Success(content) => Success(content)
    case Failure(e) => if e.IOException? && config.ignoreMissingResources then Success("") else Failure(e)
  }

  // ---------------------------------------------------------------------------
  // The decorated processor and the chain
  // ---------------------------------------------------------------------------

  /** Whether the minimize-aware decorator lets the processor run. */
  predicate Applies(p: Processor, resource: Resource) {
    resource.minimize || !p.minimizeAnnotated
  }

  /** One call of the decorated processor. The callback decorator does not change what the
      call does; the minimize-aware one copies the input for a skipped processor and, when
      missing resources are ignored, turns an IOException into a normal return with what
      had been written so far. */
  function Step(p: Processor, config: WroConfiguration, resource: Resource, input: string): (r: ProcessOutcome)
    ensures !Applies(p, resource) ==> r == Wrote(input)
    ensures r.Threw? ==> r == p.process(resource, input)
    ensures r.Threw? && config.ignoreMissingResources ==> !r.error.IOException?
    ensures Applies(p, resource) && p.process(resource, input).Wrote? ==> r == p.process(resource, input)
    ensures Applies(p, resource) && p.process(resource, input).Threw? &&
            !(p.process(resource, input).error.IOException? && config.ignoreMissingResources) ==>
              r == p.process(resource, input)
    ensures Applies(p, resource) && p.process(resource, input).Threw? &&
            p.process(resource, input).error.IOException? && config.ignoreMissingResources ==>
              r == Wrote(p.process(resource, input).partial)
  {
    if Applies(p, resource) then
      match p.process(resource, input)
      case Wrote(output) => Wrote(output)
      case Threw(e, partial) =>
        if e.IOException? && config.ignoreMissingResources then Wrote(partial) else Threw(e, partial)
    else Wrote(input)
  }

  /** Each processor reads the previous one's output; the first throw ends the chain. */
  function Chain(ps: seq<Processor>, config: WroConfiguration, resource: Resource, content: string): Result<string>
    decreases |ps|
  {
    if ps == [] then Success(content)
    else
      match Step(ps[0], config, resource, content)
      case Threw(e, _) => Failure(e)
      case Wrote(output) => Chain(ps[1..], config, resource, output)
  }

  /** How many decorated processor calls the chain makes, each one firing one before and
      one after callback. */
  function ChainInvocations(ps: seq<Processor>, config: WroConfiguration, resource: Resource, content: string): nat
    decreases |ps|
  {
    if ps == [] then 0
    else
      match Step(ps[0], config, resource, content)
      case Threw(_, _) => 1
      case Wrote(output) => 1 + ChainInvocations(ps[1..], config, resource, output)
  }

  /** The processors applied to a resource. */
  function Filtered(env: Collaborators, resource: Resource, minimize: bool): seq<Processor> {
    env.filterProcessorsToApply(minimize, resource.resourceType, env.preProcessors)
  }

  /** `applyPreProcessors`. */
  function PreProcessed(env: Collaborators, config: WroConfiguration, resource: Resource, minimize: bool): Result<string> {
    match ResourceContent(env, config, resource)
    case Failure(e) => Failure(e)
    case Success(content) =>
      if Filtered(env, resource, minimize) == [] then Success(content)
      else Chain(Filtered(env, resource, minimize), config, resource, content)
  }

  function ResourceInvocations(env: Collaborators, config: WroConfiguration, resource: Resource, minimize: bool): nat {
    match ResourceContent(env, config, resource)
    case Failure(_) => 0
    case Success(content) => ChainInvocations(Filtered(env, resource, minimize), config, resource, content)
  }

  // ---------------------------------------------------------------------------
  // The sequential and the parallel merge
  // ---------------------------------------------------------------------------

  /** The sequential loop of `processAndMerge`: resources in group order, the first
      exception ends the merge. */
  function Merged(env: Collaborators, config: WroConfiguration, resources: seq<Resource>, minimize: bool): Result<string>
    decreases |resources|
  {
    if resources == [] then Success("")
    else
      match Merged(env, config, resources[..|resources| - 1], minimize)
      case Failure(e) => Failure(e)
      case Success(merged) =>
        match PreProcessed(env, config, Last(resources), minimize)
        case Failure(e) => Failure(e)
        case Success(text) => Success(merged + text)
  }

  function MergedInvocations(env: Collaborators, config: WroConfiguration, resources: seq<Resource>, minimize: bool): nat
    decreases |resources|
  {
    if resources == [] then 0
    else
      var before := MergedInvocations(env, config, resources[..|resources| - 1], minimize);
      if Merged(env, config, resources[..|resources| - 1], minimize).Failure? then before
      else before + ResourceInvocations(env, config, Last(resources), minimize)
  }

  /** `shouldRunInParallel`. */
  predicate ShouldRunInParallel(config: WroConfiguration, resourceCount: nat, availableProcessors: nat) {
    config.parallelPreprocessing && resourceCount > 1 && availableProcessors > 1
  }

  /** The exception `runInParallel` throws for a task that threw `cause`. */
  function Propagated(cause: Exc): (r: Exc)
    ensures r.WroRuntimeException? || r.IOException?
    ensures r == cause || (r.WroRuntimeException? && r.cause == Some(cause))
    ensures cause.WroRuntimeException? || cause.IOException? ==> r == cause
  {
    if cause.WroRuntimeException? || cause.IOException? then cause
    else WroRuntimeException("Problem during parallel pre processing", Some(cause))
  }

  /** What each submitted task returns or throws, in submission order. */
  function Outcomes(env: Collaborators, config: WroConfiguration, resources: seq<Resource>, minimize: bool)
    : (r: seq<Result<string>>)
    ensures |r| == |resources|
    ensures forall i :: 0 <= i < |resources| ==> r[i] == PreProcessed(env, config, resources[i], minimize)
  {
    seq(|resources|, i requires 0 <= i < |resources| => PreProcessed(env, config, resources[i], minimize))
  }

  /** The loop over the futures of `runInParallel`: results appended in order, the first
      failed future ends it with its cause propagated. */
  function FoldInOrder(outcomes: seq<Result<string>>): Result<string>
    decreases |outcomes|
  {
    if outcomes == [] then Success("")
    else
      match FoldInOrder(outcomes[..|outcomes| - 1])
      case Failure(e) => Failure(e)
      case Success(merged) =>
        match Last(outcomes)
        case Failure(e) => Failure(Propagated(e))
        case Success(text) => Success(merged + text)
  }

  /** Every task runs, whatever the others do. */
  function AllInvocations(env: Collaborators, config: WroConfiguration, resources: seq<Resource>, minimize: bool): nat
    decreases |resources|
  {
    if resources == [] then 0
    else AllInvocations(env, config, resources[..|resources| - 1], minimize)
         + ResourceInvocations(env, config, Last(resources), minimize)
  }

  /** `processAndMerge`. */
  function ProcessAndMergeResult(env: Collaborators, config: WroConfiguration, availableProcessors: nat,
                                 group: Option<Group>, minimize: bool): Result<string> {
    match group
    case None => Failure(NullPointerException(ValidatedObjectIsNull))
    case Some(g) =>
      if ShouldRunInParallel(config, |g.resources|, availableProcessors)
      then FoldInOrder(Outcomes(env, config, g.resources, minimize))
      else Merged(env, config, g.resources, minimize)
  }

  function ProcessAndMergeInvocations(env: Collaborators, config: WroConfiguration, availableProcessors: nat,
                                      group: Option<Group>, minimize: bool): nat {
    match group
    case None => 0
    case Some(g) =>
      if ShouldRunInParallel(config, |g.resources|, availableProcessors)
      then AllInvocations(env, config, g.resources, minimize)
      else MergedInvocations(env, config, g.resources, minimize)
  }

  /** The values of the successful outcomes, in order. */
  function Texts(outcomes: seq<Result<string>>): seq<string> {
    seq(|outcomes|, i requires 0 <= i < |outcomes| => if outcomes[i].Success? then outcomes[i].value else "")
  }

  // ---------------------------------------------------------------------------
  // Properties
  // ---------------------------------------------------------------------------

  /** The fold over the futures succeeds exactly when every task succeeded, and then it is
      the concatenation of their results in submission order. */
  lemma {:induction false} FoldInOrderSucceeds(outcomes: seq<Result<string>>)
    ensures FoldInOrder(outcomes).Success? <==> forall i :: 0 <= i < |outcomes| ==> outcomes[i].Success?
    ensures FoldInOrder(outcomes).Success? ==> FoldInOrder(outcomes).value == Concat(Texts(outcomes))
    decreases |outcomes|
  {
    if outcomes != [] {
      var init := outcomes[..|outcomes| - 1];
      FoldInOrderSucceeds(init);
      assert forall i :: 0 <= i < |init| ==> init[i] == outcomes[i];
      assert Texts(outcomes)[..|outcomes| - 1] == Texts(init);
    }
  }

  /** When tasks fail, the exception raised is the propagated cause of the lowest-index
      failure, whatever the later tasks did. */
  lemma {:induction false} FoldInOrderLowestFailure(outcomes: seq<Result<string>>, k: nat)
    requires k < |outcomes| && outcomes[k].Failure?
    requires forall j :: 0 <= j < k ==> outcomes[j].Success?
    ensures FoldInOrder(outcomes) == Failure(Propagated(outcomes[k].error))
    decreases |outcomes|
  {
    var init := outcomes[..|outcomes| - 1];
    if k == |outcomes| - 1 {
      FoldInOrderSucceeds(init);
    } else {
      FoldInOrderLowestFailure(init, k);
    }
  }

  /** A failure in a prefix of the group ends the sequential merge with that failure, and
      no later resource is processed. */
  lemma {:induction false} MergedPrefixFailure(env: Collaborators, config: WroConfiguration,
                                               resources: seq<Resource>, minimize: bool, i: nat)
    requires i <= |resources|
    requires Merged(env, config, resources[..i], minimize).Failure?
    ensures Merged(env, config, resources, minimize) == Merged(env, config, resources[..i], minimize)
    ensures MergedInvocations(env, config, resources, minimize) == MergedInvocations(env, config, resources[..i], minimize)
    decreases |resources|
  {
    if i < |resources| {
      var init := resources[..|resources| - 1];
      assert init[..i] == resources[..i];
      MergedPrefixFailure(env, config, init, minimize, i);
    } else {
      assert resources[..i] == resources;
    }
  }

  /** The parallel path gives the sequential path's text, and in place of its exception
      that exception as `runInParallel` propagates it. */
  lemma {:induction false} ParallelAgreesWithSequential(env: Collaborators, config: WroConfiguration,
                                                        resources: seq<Resource>, minimize: bool)
    ensures Merged(env, config, resources, minimize).Success? ==>
              FoldInOrder(Outcomes(env, config, resources, minimize)) == Merged(env, config, resources, minimize)
    ensures Merged(env, config, resources, minimize).Failure? ==>
              FoldInOrder(Outcomes(env, config, resources, minimize))
                == Failure(Propagated(Merged(env, config, resources, minimize).error))
    decreases |resources|
  {
    if resources != [] {
      var init := resources[..|resources| - 1];
      ParallelAgreesWithSequential(env, config, init, minimize);
      assert Outcomes(env, config, resources, minimize)[..|resources| - 1] == Outcomes(env, config, init, minimize);
    }
  }

  /** The sequential merge is the concatenation, in group order, of each resource's
      pre-processed text, and it succeeds exactly when every resource does. */
  lemma MergedIsConcatenation(env: Collaborators, config: WroConfiguration, resources: seq<Resource>, minimize: bool)
    ensures Merged(env, config, resources, minimize).Success? <==>
              forall i :: 0 <= i < |resources| ==> PreProcessed(env, config, resources[i], minimize).Success?
    ensures Merged(env, config, resources, minimize).Success? ==>
              Merged(env, config, resources, minimize).value == Concat(Texts(Outcomes(env, config, resources, minimize)))
  {
    ParallelAgreesWithSequential(env, config, resources, minimize);
    FoldInOrderSucceeds(Outcomes(env, config, resources, minimize));
  }

  /** The sequential merge fails with the exception of the first failing resource, as is. */
  lemma MergedFirstFailure(env: Collaborators, config: WroConfiguration, resources: seq<Resource>, minimize: bool, k: nat)
    requires k < |resources| && PreProcessed(env, config, resources[k], minimize).Failure?
    requires forall j :: 0 <= j < k ==> PreProcessed(env, config, resources[j], minimize).Success?
    ensures Merged(env, config, resources, minimize) == PreProcessed(env, config, resources[k], minimize)
  {
    var prefix := resources[..k + 1];
    MergedIsConcatenation(env, config, resources[..k], minimize);
    assert resources[..k + 1][..k] == resources[..k];
    MergedPrefixFailure(env, config, resources, minimize, k + 1);
  }

  /** Whichever path `processAndMerge` takes, it returns the same text, or the sequential
      exception as the parallel path propagates it; a null group is rejected. */
  lemma PathChoiceKeepsResult(env: Collaborators, config: WroConfiguration, availableProcessors: nat,
                              group: Option<Group>, minimize: bool)
    ensures group.None? ==> ProcessAndMergeResult(env, config, availableProcessors, group, minimize)
                              == Failure(NullPointerException(ValidatedObjectIsNull))
    ensures group.Some? && Merged(env, config, group.value.resources, minimize).Success? ==>
              ProcessAndMergeResult(env, config, availableProcessors, group, minimize)
                == Merged(env, config, group.value.resources, minimize)
    ensures group.Some? && !ShouldRunInParallel(config, |group.value.resources|, availableProcessors) ==>
              ProcessAndMergeResult(env, config, availableProcessors, group, minimize)
                == Merged(env, config, group.value.resources, minimize)
    ensures group.Some? && ShouldRunInParallel(config, |group.value.resources|, availableProcessors)
            && Merged(env, config, group.value.resources, minimize).Failure? ==>
              ProcessAndMergeResult(env, config, availableProcessors, group, minimize)
                == Failure(Propagated(Merged(env, config, group.value.resources, minimize).error))
  {
    if group.Some? {
      ParallelAgreesWithSequential(env, config, group.value.resources, minimize);
    }
  }

  /** Running a chain in two parts: the second part reads what the first produced. */
  lemma {:induction false} ChainAppend(ps1: seq<Processor>, ps2: seq<Processor>, config: WroConfiguration,
                                       resource: Resource, content: string)
    ensures Chain(ps1 + ps2, config, resource, content) ==
              match Chain(ps1, config, resource, content)
              case Failure(e) => Failure(e)
              case Success(output) => Chain(ps2, config, resource, output)
    decreases |ps1|
  {
    if ps1 == [] {
      assert ps1 + ps2 == ps2;
    } else {
      assert (ps1 + ps2)[1..] == ps1[1..] + ps2;
      match Step(ps1[0], config, resource, content)
      case Threw(_, _) =>
      case Wrote(output) => ChainAppend(ps1[1..], ps2, config, resource, output);
    }
  }

  /** A chain makes one decorated call per processor when it completes, and stops after
      the call that threw otherwise. */
  lemma {:induction false} ChainInvocationsBounds(ps: seq<Processor>, config: WroConfiguration,
                                                  resource: Resource, content: string)
    ensures Chain(ps, config, resource, content).Success? ==> ChainInvocations(ps, config, resource, content) == |ps|
    ensures Chain(ps, config, resource, content).Failure? ==> 0 < ChainInvocations(ps, config, resource, content) <= |ps|
    decreases |ps|
  {
    if ps != [] {
      match Step(ps[0], config, resource, content)
      case Threw(_, _) =>
      case Wrote(output) => ChainInvocationsBounds(ps[1..], config, resource, output);
    }
  }

  /** When the resource is not flagged for minimization and every processor is
      `@Minimize`-annotated, each one is skipped: the content comes out unchanged, and
      every skipped processor still fires its callbacks. */
  lemma {:induction false} SkippedChainIsIdentity(ps: seq<Processor>, config: WroConfiguration,
                                                  resource: Resource, content: string)
    requires !resource.minimize
    requires forall i :: 0 <= i < |ps| ==> ps[i].minimizeAnnotated
    ensures Chain(ps, config, resource, content) == Success(content)
    ensures ChainInvocations(ps, config, resource, content) == |ps|
    decreases |ps|
  {
    if ps != [] {
      assert Step(ps[0], config, resource, content) == Wrote(content);
      SkippedChainIsIdentity(ps[1..], config, resource, content);
    }
  }

  /** When the applied processor throws an IOException and missing resources are ignored,
      the chain goes on with what that processor had written; otherwise the exception ends
      the chain. */
  lemma ProcessorIOExceptionPolicy(p: Processor, rest: seq<Processor>, config: WroConfiguration,
                                   resource: Resource, content: string, message: string, partial: string)
    requires Applies(p, resource) && p.process(resource, content) == Threw(IOException(message), partial)
    ensures config.ignoreMissingResources ==>
              Chain([p] + rest, config, resource, content) == Chain(rest, config, resource, partial)
    ensures !config.ignoreMissingResources ==>
              Chain([p] + rest, config, resource, content) == Failure(IOException(message))
  {
    assert ([p] + rest)[1..] == rest;
  }

  /** Any other exception of an applied processor ends the chain, and the resource, with
      that very exception, whatever the flags say. */
  lemma ProcessorFailureEndsChain(p: Processor, rest: seq<Processor>, config: WroConfiguration,
                                  resource: Resource, content: string, e: Exc, partial: string)
    requires Applies(p, resource) && p.process(resource, content) == Threw(e, partial)
    requires !e.IOException?
    ensures Chain([p] + rest, config, resource, content) == Failure(e)
    ensures ChainInvocations([p] + rest, config, resource, content) == 1
  {
  }

  /** A resource that cannot be read is, when missing resources are ignored, pre-processed
      as the empty string (the processors still run on it); otherwise its IOException ends
      the resource. */
  lemma MissingResourcePolicy(env: Collaborators, config: WroConfiguration, resource: Resource, minimize: bool,
                              message: string)
    requires env.locate(resource.uri) == Failure(IOException(message))
    ensures config.ignoreMissingResources ==>
              PreProcessed(env, config, resource, minimize) == Chain(Filtered(env, resource, minimize), config, resource, "")
    ensures !config.ignoreMissingResources ==>
              PreProcessed(env, config, resource, minimize) == Failure(IOException(message))
  {
  }

  /** With no processor to apply, the resource's raw content is its pre-processed text;
      otherwise it is the last processor's output. */
  lemma {:induction false} PreProcessedIsChain(env: Collaborators, config: WroConfiguration, resource: Resource,
                                               minimize: bool)
    ensures PreProcessed(env, config, resource, minimize) ==
              match ResourceContent(env, config, resource)
              case Failure(e) => Failure(e)
              case Success(content) => Chain(Filtered(env, resource, minimize), config, resource, content)
    ensures Filtered(env, resource, minimize) == [] ==>
              PreProcessed(env, config, resource, minimize) == ResourceContent(env, config, resource)
  {
    var ps := Filtered(env, resource, minimize);
    if ResourceContent(env, config, resource).Success? && ps == [] {
      assert Chain(ps, config, resource, ResourceContent(env, config, resource).value)
             == Success(ResourceContent(env, config, resource).value);
    }
  }

  /** When nothing fails, the sequential path fires exactly the callbacks the parallel
      path fires, and it never fires more. */
  lemma {:induction false} SequentialCallbacks(env: Collaborators, config: WroConfiguration,
                                               resources: seq<Resource>, minimize: bool)
    ensures MergedInvocations(env, config, resources, minimize) <= AllInvocations(env, config, resources, minimize)
    ensures Merged(env, config, resources, minimize).Success? ==>
              MergedInvocations(env, config, resources, minimize) == AllInvocations(env, config, resources, minimize)
    decreases |resources|
  {
    if resources != [] {
      SequentialCallbacks(env, config, resources[..|resources| - 1], minimize);
    }
  }
}
