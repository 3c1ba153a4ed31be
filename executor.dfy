/** `PreProcessorExecutor` as a class: the injected collaborators are constants, the
    lifecycle callback registry is two counters, and the lazily created thread pool is
    the pool size it was created with. The configuration of the current context and the
    number of available processors are passed in. */
module Executor {
  import opened Exceptions
  import opened PreProcessing

  class PreProcessorExecutor {
    const env: Collaborators
    /** Calls of `onBeforePreProcess` and `onAfterPreProcess`. */
    var beforePreProcessCount: nat
    var afterPreProcessCount: nat
    /** The executor service, once created: its fixed pool size. */
    var executor: Option<nat>

    constructor (env: Collaborators)
      ensures this.env == env
      ensures beforePreProcessCount == 0 && afterPreProcessCount == 0 && executor == None
    {
      this.env := env;
      beforePreProcessCount := 0;
      afterPreProcessCount := 0;
      executor := None;
    }

    /** `processAndMerge`. */
    method ProcessAndMerge(group: Option<Group>, minimize: bool, config: WroConfiguration, availableProcessors: nat)
      returns (r: Result<string>)
      modifies this
      ensures r == ProcessAndMergeResult(env, config, availableProcessors, group, minimize)
      ensures beforePreProcessCount ==
                old(beforePreProcessCount) + ProcessAndMergeInvocations(env, config, availableProcessors, group, minimize)
      ensures afterPreProcessCount ==
                old(afterPreProcessCount) + ProcessAndMergeInvocations(env, config, availableProcessors, group, minimize)
      ensures executor ==
                if group.Some? && ShouldRunInParallel(config, |group.value.resources|, availableProcessors)
                   && old(executor).None?
                then Some(availableProcessors) else old(executor)
    {
      if group.None? {
        return Failure(NullPointerException(ValidatedObjectIsNull));
      }
      var resources := group.value.resources;
      if ShouldRunInParallel(config, |resources|, availableProcessors) {
        r := RunInParallel(resources, minimize, config, availableProcessors);
        return;
      }
      r := MergeInOrder(resources, minimize, config);
    }

    /** The sequential loop of `processAndMerge`. */
    method MergeInOrder(resources: seq<Resource>, minimize: bool, config: WroConfiguration) returns (r: Result<string>)
      modifies this`beforePreProcessCount, this`afterPreProcessCount
      ensures r == Merged(env, config, resources, minimize)
      ensures beforePreProcessCount == old(beforePreProcessCount) + MergedInvocations(env, config, resources, minimize)
      ensures afterPreProcessCount == old(afterPreProcessCount) + MergedInvocations(env, config, resources, minimize)
    {
      var result := "";
      var i := 0;
      while i < |resources|
        invariant 0 <= i <= |resources|
        invariant Merged(env, config, resources[..i], minimize) == Success(result)
        invariant beforePreProcessCount == old(beforePreProcessCount) + MergedInvocations(env, config, resources[..i], minimize)
        invariant afterPreProcessCount == old(afterPreProcessCount) + MergedInvocations(env, config, resources[..i], minimize)
      {
        assert resources[..i + 1][..i] == resources[..i];
        var text := ApplyPreProcessors(resources[i], minimize, config);
        if text.Failure? {
          MergedPrefixFailure(env, config, resources, minimize, i + 1);
          return Failure(text.error);
        }
        result := result + text.value;
        i := i + 1;
      }
      assert resources[..i] == resources;
      r := Success(result);
    }

    /** `runInParallel`: one task per resource, each running to its end; the results are
        then read back in resource order. */
    method RunInParallel(resources: seq<Resource>, minimize: bool, config: WroConfiguration, availableProcessors: nat)
      returns (r: Result<string>)
      requires availableProcessors > 0
      modifies this`beforePreProcessCount, this`afterPreProcessCount, this`executor
      ensures r == FoldInOrder(Outcomes(env, config, resources, minimize))
      ensures beforePreProcessCount == old(beforePreProcessCount) + AllInvocations(env, config, resources, minimize)
      ensures afterPreProcessCount == old(afterPreProcessCount) + AllInvocations(env, config, resources, minimize)
      ensures executor == if old(executor).None? then Some(availableProcessors) else old(executor)
    {
      GetExecutorService(availableProcessors);
      var outcomes := RunTasks(resources, minimize, config);
      r := ReadFutures(outcomes);
    }

    /** The submitted tasks, each running `applyPreProcessors` on its resource. */
    method RunTasks(resources: seq<Resource>, minimize: bool, config: WroConfiguration)
      returns (outcomes: seq<Result<string>>)
      modifies this`beforePreProcessCount, this`afterPreProcessCount
      ensures outcomes == Outcomes(env, config, resources, minimize)
      ensures beforePreProcessCount == old(beforePreProcessCount) + AllInvocations(env, config, resources, minimize)
      ensures afterPreProcessCount == old(afterPreProcessCount) + AllInvocations(env, config, resources, minimize)
    {
      outcomes := [];
      for i := 0 to |resources|
        invariant outcomes == Outcomes(env, config, resources[..i], minimize)
        invariant beforePreProcessCount == old(beforePreProcessCount) + AllInvocations(env, config, resources[..i], minimize)
        invariant afterPreProcessCount == old(afterPreProcessCount) + AllInvocations(env, config, resources[..i], minimize)
      {
        assert resources[..i + 1][..i] == resources[..i];
        var outcome := ApplyPreProcessors(resources[i], minimize, config);
        outcomes := outcomes + [outcome];
      }
      assert resources[..|resources|] == resources;
    }

    /** The loop over the futures: results appended in submission order, the first
        failed one rethrown as `runInParallel` propagates it. */
    method ReadFutures(outcomes: seq<Result<string>>) returns (r: Result<string>)
      ensures r.Success? <==> forall i :: 0 <= i < |outcomes| ==> outcomes[i].Success?
      ensures r.Success? ==> r.value == Concat(Texts(outcomes))
      ensures r.Failure? ==> exists k :: && 0 <= k < |outcomes| && outcomes[k].Failure?
                                         && (forall j :: 0 <= j < k ==> outcomes[j].Success?)
                                         && r.error == Propagated(outcomes[k].error)
      ensures r == FoldInOrder(outcomes)
    {
      FoldInOrderSucceeds(outcomes);
      var result := "";
      for i := 0 to |outcomes|
        invariant FoldInOrder(outcomes[..i]) == Success(result)
        invariant forall j :: 0 <= j < i ==> outcomes[j].Success?
      {
        assert outcomes[..i + 1][..i] == outcomes[..i];
        match outcomes[i]
        case Failure(e) =>
          FoldInOrderLowestFailure(outcomes, i);
          return Failure(Propagated(e));
        case Success(text) =>
          result := result + text;
      }
      assert outcomes[..|outcomes|] == outcomes;
      r := Success(result);
    }

    /** `getExecutorService`: the pool is created once, sized to the available processors. */
    method GetExecutorService(availableProcessors: nat)
      requires availableProcessors > 0
      modifies this`executor
      ensures old(executor).Some? ==> executor == old(executor)
      ensures old(executor).None? ==> executor == Some(availableProcessors)
    {
      if executor.None? {
        executor := Some(availableProcessors);
      }
    }

    /** `applyPreProcessors`: each decorated processor reads the previous one's output. */
    method ApplyPreProcessors(resource: Resource, minimize: bool, config: WroConfiguration) returns (r: Result<string>)
      modifies this`beforePreProcessCount, this`afterPreProcessCount
      ensures r == PreProcessed(env, config, resource, minimize)
      ensures beforePreProcessCount == old(beforePreProcessCount) + ResourceInvocations(env, config, resource, minimize)
      ensures afterPreProcessCount == old(afterPreProcessCount) + ResourceInvocations(env, config, resource, minimize)
    {
      var processors := env.filterProcessorsToApply(minimize, resource.resourceType, env.preProcessors);
      var content := GetResourceContent(resource, config);
      if content.Failure? {
        return Failure(content.error);
      }
      var resourceContent := content.value;
      if processors == [] {
        return Success(resourceContent);
      }
      var writer := "";
      var i := 0;
      while i < |processors|
        invariant 0 <= i <= |processors|
        invariant Chain(processors[i..], config, resource, resourceContent) == PreProcessed(env, config, resource, minimize)
        invariant i > 0 ==> writer == resourceContent
        invariant beforePreProcessCount + ChainInvocations(processors[i..], config, resource, resourceContent) ==
                    old(beforePreProcessCount) + ResourceInvocations(env, config, resource, minimize)
        invariant afterPreProcessCount + ChainInvocations(processors[i..], config, resource, resourceContent) ==
                    old(afterPreProcessCount) + ResourceInvocations(env, config, resource, minimize)
      {
        assert processors[i..][1..] == processors[i + 1..];
        var outcome := ProcessWithCallbacks(processors[i], resource, resourceContent, config);
        if outcome.Threw? {
          return Failure(outcome.error);
        }
        writer := outcome.output;
        resourceContent := writer;
        i := i + 1;
      }
      r := Success(writer);
    }

    /** The processor wrapped by both decorators: the callbacks fire around the call even
        when it throws. */
    method ProcessWithCallbacks(processor: Processor, resource: Resource, input: string, config: WroConfiguration)
      returns (outcome: ProcessOutcome)
      modifies this`beforePreProcessCount, this`afterPreProcessCount
      ensures outcome == Step(processor, config, resource, input)
      ensures beforePreProcessCount == old(beforePreProcessCount) + 1
      ensures afterPreProcessCount == old(afterPreProcessCount) + 1
    {
      beforePreProcessCount := beforePreProcessCount + 1;
      outcome := ProcessMinimizeAware(processor, resource, input, config);
      afterPreProcessCount := afterPreProcessCount + 1;
    }

    /** The processor wrapped by the minimize-aware decorator. */
    method ProcessMinimizeAware(processor: Processor, resource: Resource, input: string, config: WroConfiguration)
      returns (outcome: ProcessOutcome)
      ensures outcome == Step(processor, config, resource, input)
    {
      if resource.minimize || !processor.minimizeAnnotated {
        outcome := processor.process(resource, input);
        if outcome.Threw? && outcome.error.IOException? && config.ignoreMissingResources {
          outcome := Wrote(outcome.partial);
        }
      } else {
        outcome := Wrote(input);
      }
    }

    /** `getResourceContent`. */
    method GetResourceContent(resource: Resource, config: WroConfiguration) returns (r: Result<string>)
      ensures r == ResourceContent(env, config, resource)
    {
      r := env.locate(resource.uri);
      if r.Failure? && r.error.IOException? && config.ignoreMissingResources {
        r := Success("");
      }
    }
  }
}
