# wro4j pre-processing core, provider registries and processor configuration, in Dafny

This project models four parts of wro4j (web resource optimizer for Java) and proves
properties of each.

- **`PreProcessorExecutor`** merges a group's resources. It reads each resource through
  the resource locator. It runs the text through the chain of pre-processors that apply
  to that resource. It concatenates the results in group order. This happens either
  sequentially or with one thread-pool task per resource, whose results are read back in
  resource order.
  - Each processor is wrapped in a minimize-aware decorator and a lifecycle-callback
    decorator.
  - Missing resources and processor IOExceptions are swallowed when
    `ignoreMissingResources` is set.
- **`UltraConfigurableProviderSupport`** holds the five alias registries a provider
  supplies: hash strategies, URI locators, naming strategies, pre-processors and
  post-processors. They can be replaced, merged and copied out, and defaults can be
  layered under them.
- **`ConfigSupport` and `ConfigPropertyKey`** form the typed configuration set of a
  processor. A property's value is the one set explicitly, else the first answer of an
  ordered list of value resolvers (such as the servlet-context init-parameter resolver),
  else the key's default. Keys convert strings to their value type and compare by key
  string.
- **`AbstractDecorator`** (unwrapping chains of decorators) and
  **`JsDocToolkitUtils.getJsClassFiles`** (the class pages of a JsDoc Toolkit output
  directory).

Modules:

| file | module | contents |
|---|---|---|
| `exceptions.dfy` | `Exceptions` | the Java exceptions involved, `Option`, `Result`, `Outcome` |
| `strings.dfy` | `Strings` | `startsWith`/`endsWith` |
| `pre_processing.dfy` | `PreProcessing` | resources, processors, the functions specifying the executor, and their properties |
| `executor.dfy` | `Executor` | the `PreProcessorExecutor` class, proved against `PreProcessing` |
| `provider_support.dfy` | `ProviderSupport` | insertion-ordered maps, `putAllInMapIfKeyAbsent`, the registry class |
| `property_keys.dfy` | `PropertyKeys` | the value types, `Integer.parseInt`, `String.hashCode`, `ConfigPropertyKey` |
| `value_resolvers.dfy` | `ValueResolvers` | `getFullPropertyKey`, the servlet-context resolver |
| `config_support.dfy` | `Configuration` | resolver lists, `ConfigSupport`, the `setPropertyValues` check |
| `decorators.dfy` | `Decorators` | decorator chains |
| `jsdoc_utils.dfy` | `JsDocUtils` | `getJsClassFiles` over a directory listing |

How the model represents the source:

- **Collaborators.** The resource locator, the processors factory and
  `ProcessorsUtils.filterProcessorsToApply` are function-valued constants of the executor.
  A processor is a function from resource and input text to what it writes. When it
  throws, the model keeps what it had written before the throw.
- **Lifecycle callbacks.** The `LifecycleCallbackRegistry` is two counters, one for
  `onBeforePreProcess` and one for `onAfterPreProcess`.
- **Context values.** The `WroConfiguration` of the current context and
  `Runtime.availableProcessors()` are method parameters.
- **Threads.** Every submitted task runs to its end, and the futures are then read in
  submission order. The fixed thread pool is recorded as the size it was created with.
- **Collections.** A `LinkedHashMap` of aliases is a key sequence plus a map. The
  `HashSet` and `HashMap` of `ConfigPropertyKey`s are maps indexed by key string, because
  keys compare by key string. When an equal key is already present, its object is the
  one that stays, as in `HashMap.put` and `HashSet.add`.
- **Java values.** Where the model gives a value an `Option` type, null is `None`. These
  values are the group passed to `processAndMerge`, the object given to a decorator,
  property values and their string forms, the expected keys and the configuration set
  key given to `ConfigSupport`, and the resolver prefix. Every other argument is non-null
  in the model (see "Left out"). A thrown exception is the `Failure`/`Fail` of a result.

## Model

| member | source | states |
|---|---|---|
| Executor.PreProcessorExecutor.ProcessAndMerge | wro4j-core/src/main/java/ro/isdc/wro/model/group/processor/PreProcessorExecutor.java:68-83 | returns `ProcessAndMergeResult`: NPE "The validated object is null" for a null group, the parallel fold when `shouldRunInParallel`, the sequential merge otherwise; both callback counters grow by the number of decorated processor calls; the pool is created only on the parallel path, and only once |
| Executor.PreProcessorExecutor.MergeInOrder | wro4j-core/src/main/java/ro/isdc/wro/model/group/processor/PreProcessorExecutor.java:73-81 | the loop appends each resource's pre-processed text in group order and stops at the first exception (`Merged`), counting the callbacks of exactly the resources it reached |
| Executor.PreProcessorExecutor.RunInParallel | wro4j-core/src/main/java/ro/isdc/wro/model/group/processor/PreProcessorExecutor.java:96-130 | the result is the in-order fold of every task's outcome; every task's callbacks fire; the executor is created lazily |
| Executor.PreProcessorExecutor.RunTasks | wro4j-core/src/main/java/ro/isdc/wro/model/group/processor/PreProcessorExecutor.java:99-112 | one task per resource, in submission order, each outcome being that resource's `applyPreProcessors` |
| Executor.PreProcessorExecutor.ReadFutures | wro4j-core/src/main/java/ro/isdc/wro/model/group/processor/PreProcessorExecutor.java:114-128 | succeeds iff every task succeeded, and then gives their concatenation in submission order; on failure, the exception is the propagated cause of some failing task with no failure before it (the lowest-index one) |
| Executor.PreProcessorExecutor.GetExecutorService | wro4j-core/src/main/java/ro/isdc/wro/model/group/processor/PreProcessorExecutor.java:132-140 | the pool is created once, sized to the available processors, and kept afterwards |
| Executor.PreProcessorExecutor.ApplyPreProcessors | wro4j-core/src/main/java/ro/isdc/wro/model/group/processor/PreProcessorExecutor.java:148-170 | result is `PreProcessed`: each decorated processor reads the previous output, and the last output is returned (the raw content when no processor applies); callbacks fire once per call made |
| Executor.PreProcessorExecutor.ProcessWithCallbacks | wro4j-core/src/main/java/ro/isdc/wro/model/group/processor/PreProcessorExecutor.java:201-213 | the decorated call behaves as `Step`, and each callback counter grows by exactly one, also when the processor throws |
| Executor.PreProcessorExecutor.ProcessMinimizeAware | wro4j-core/src/main/java/ro/isdc/wro/model/group/processor/PreProcessorExecutor.java:219-240 | the decorated call is `Step` (whose contract gives the skip and IOException policy) |
| Executor.PreProcessorExecutor.GetResourceContent | wro4j-core/src/main/java/ro/isdc/wro/model/group/processor/PreProcessorExecutor.java:179-196 | result is `ResourceContent` |
| PreProcessing.ResourceContent | wro4j-core/src/main/java/ro/isdc/wro/model/group/processor/PreProcessorExecutor.java:179-196 | text that was read is returned as read, whatever the flag; the read fails iff the locator threw and the exception is not an IOException ignored under ignoreMissingResources, and then with the locator's own exception; without the flag the result is exactly the locator's; with it no IOException escapes and a swallowed one gives "" |
| PreProcessing.Step | wro4j-core/src/main/java/ro/isdc/wro/model/group/processor/PreProcessorExecutor.java:219-240 | a skipped processor copies its input; an applied one that returns gives its own output; an applied one that throws lets its exception escape, unless it is an IOException under ignoreMissingResources, which gives the partial output instead; so no IOException escapes under that flag |
| PreProcessing.Chain | wro4j-core/src/main/java/ro/isdc/wro/model/group/processor/PreProcessorExecutor.java:158-169 | reference definition: each processor reads the previous output, the first exception ends it; its meaning is given by `ChainAppend`, `ChainInvocationsBounds`, `SkippedChainIsIdentity` and `ProcessorIOExceptionPolicy` |
| PreProcessing.PreProcessed | wro4j-core/src/main/java/ro/isdc/wro/model/group/processor/PreProcessorExecutor.java:148-170 | reference definition of `applyPreProcessors`; `PreProcessedIsChain` and `MissingResourcePolicy` state what it gives |
| PreProcessing.Merged | wro4j-core/src/main/java/ro/isdc/wro/model/group/processor/PreProcessorExecutor.java:73-81 | reference definition of the sequential loop; `MergedIsConcatenation`, `MergedFirstFailure` and `MergedPrefixFailure` state what it gives |
| PreProcessing.ShouldRunInParallel | wro4j-core/src/main/java/ro/isdc/wro/model/group/processor/PreProcessorExecutor.java:85-89 | the parallel path is taken iff the flag is set, there are at least two resources and at least two processors; `PathChoiceKeepsResult` shows the choice keeps the text |
| PreProcessing.FoldInOrder | wro4j-core/src/main/java/ro/isdc/wro/model/group/processor/PreProcessorExecutor.java:114-129 | reference definition of the loop over the futures; `FoldInOrderSucceeds` and `FoldInOrderLowestFailure` state what it gives |
| PreProcessing.ProcessAndMergeResult | wro4j-core/src/main/java/ro/isdc/wro/model/group/processor/PreProcessorExecutor.java:68-83 | reference definition of `processAndMerge`; `PathChoiceKeepsResult` states what it gives |
| PreProcessing.Propagated | wro4j-core/src/main/java/ro/isdc/wro/model/group/processor/PreProcessorExecutor.java:117-127 | what the parallel path throws is always a WroRuntimeException or an IOException; such a cause is rethrown itself, any other is wrapped in a WroRuntimeException whose cause it is |
| PreProcessing.FoldInOrderSucceeds | wro4j-core/src/main/java/ro/isdc/wro/model/group/processor/PreProcessorExecutor.java:114-129 | the futures' fold succeeds iff every task did, and is then the concatenation of the task results in order |
| PreProcessing.FoldInOrderLowestFailure | wro4j-core/src/main/java/ro/isdc/wro/model/group/processor/PreProcessorExecutor.java:114-128 | with failing tasks, the exception is the propagated cause of the lowest-index failure, whatever later tasks did |
| PreProcessing.MergedPrefixFailure | wro4j-core/src/main/java/ro/isdc/wro/model/group/processor/PreProcessorExecutor.java:77-80 | once a resource fails, the sequential merge ends with that failure and processes no later resource (callback count unchanged) |
| PreProcessing.ParallelAgreesWithSequential | wro4j-core/src/main/java/ro/isdc/wro/model/group/processor/PreProcessorExecutor.java:74-129 | the parallel path yields the sequential text; where the sequential path throws e, the parallel path throws `Propagated(e)` |
| PreProcessing.MergedIsConcatenation | wro4j-core/src/main/java/ro/isdc/wro/model/group/processor/PreProcessorExecutor.java:73-82 | the sequential merge succeeds iff every resource does, and is then the concatenation of the resources' pre-processed texts in group order |
| PreProcessing.MergedFirstFailure | wro4j-core/src/main/java/ro/isdc/wro/model/group/processor/PreProcessorExecutor.java:77-80 | the sequential merge throws exactly the exception of the first failing resource, unwrapped |
| PreProcessing.PathChoiceKeepsResult | wro4j-core/src/main/java/ro/isdc/wro/model/group/processor/PreProcessorExecutor.java:68-89 | a null group is rejected; a successful merge is the same on both paths; off the parallel path the result is the sequential merge; on it, a failure is the propagated sequential exception |
| PreProcessing.ChainAppend | wro4j-core/src/main/java/ro/isdc/wro/model/group/processor/PreProcessorExecutor.java:160-167 | a chain split in two runs the second part on the first part's output, and a failure in the first part ends it |
| PreProcessing.ChainInvocationsBounds | wro4j-core/src/main/java/ro/isdc/wro/model/group/processor/PreProcessorExecutor.java:160-167 | a completed chain fires the callbacks once per processor; a failed one fires them at least once and at most once per processor |
| PreProcessing.SkippedChainIsIdentity | wro4j-core/src/main/java/ro/isdc/wro/model/group/processor/PreProcessorExecutor.java:223-236 | `@Minimize` processors on a resource not flagged for minimization leave the content unchanged, and each still fires its callbacks |
| PreProcessing.ProcessorIOExceptionPolicy | wro4j-core/src/main/java/ro/isdc/wro/model/group/processor/PreProcessorExecutor.java:227-233 | an applied processor's IOException continues the chain with its partial output when missing resources are ignored, and ends the chain with that IOException otherwise |
| PreProcessing.ProcessorFailureEndsChain | wro4j-core/src/main/java/ro/isdc/wro/model/group/processor/PreProcessorExecutor.java:219-240 | any other exception of an applied processor ends the chain with that same exception, after one call, whatever the flags |
| PreProcessing.MissingResourcePolicy | wro4j-core/src/main/java/ro/isdc/wro/model/group/processor/PreProcessorExecutor.java:179-196 | an unreadable resource is pre-processed as "" when missing resources are ignored, and otherwise fails with its IOException |
| PreProcessing.PreProcessedIsChain | wro4j-core/src/main/java/ro/isdc/wro/model/group/processor/PreProcessorExecutor.java:151-169 | the resource's text is its content run through the filtered chain; with no processor it is the raw content |
| PreProcessing.SequentialCallbacks | wro4j-core/src/main/java/ro/isdc/wro/model/group/processor/PreProcessorExecutor.java:73-112 | the sequential path never fires more callbacks than the parallel one, and fires the same number when nothing fails |
| ProviderSupport.EmptyLinked | wro4j-core/src/main/java/ro/isdc/wro/util/provider/UltraConfigurableProviderSupport.java:38-39 | a new LinkedHashMap is well formed |
| ProviderSupport.Put | wro4j-core/src/main/java/ro/isdc/wro/util/provider/UltraConfigurableProviderSupport.java:38-39 | `put` keeps the key order well formed and maps the alias to the new value |
| ProviderSupport.PutAll | wro4j-core/src/main/java/ro/isdc/wro/util/provider/UltraConfigurableProviderSupport.java:73-76 | `putAll` keeps the map well formed |
| ProviderSupport.PutAllIfKeyAbsent | wro4j-core/src/main/java/ro/isdc/wro/util/provider/UltraConfigurableProviderSupport.java:249-256 | the layered ordered map stays well formed |
| ProviderSupport.PutAllIfKeyAbsentMap | wro4j-core/src/main/java/ro/isdc/wro/util/provider/UltraConfigurableProviderSupport.java:249-256 | `putAllInMapIfKeyAbsent` on a HashMap registry; `PutAllIfKeyAbsentMapSpec` states what it gives |
| ProviderSupport.WithoutMembership | wro4j-core/src/main/java/ro/isdc/wro/util/provider/UltraConfigurableProviderSupport.java:252 | removing keys keeps exactly the other keys |
| ProviderSupport.WithoutDistinct | wro4j-core/src/main/java/ro/isdc/wro/util/provider/UltraConfigurableProviderSupport.java:252 | removing keys from a duplicate-free order leaves it duplicate-free |
| ProviderSupport.WithoutKeepsValid | wro4j-core/src/main/java/ro/isdc/wro/util/provider/UltraConfigurableProviderSupport.java:251-252 | the filtered copy of a LinkedHashMap is a LinkedHashMap |
| ProviderSupport.WithoutNothing | wro4j-core/src/main/java/ro/isdc/wro/util/provider/UltraConfigurableProviderSupport.java:252 | removing no key changes nothing |
| ProviderSupport.WithoutAll | wro4j-core/src/main/java/ro/isdc/wro/util/provider/UltraConfigurableProviderSupport.java:252 | removing every present key leaves nothing |
| ProviderSupport.WithoutTwice | wro4j-core/src/main/java/ro/isdc/wro/util/provider/UltraConfigurableProviderSupport.java:252 | removing a key set twice equals removing it once |
| ProviderSupport.WithoutAbsent | wro4j-core/src/main/java/ro/isdc/wro/util/provider/UltraConfigurableProviderSupport.java:252 | removed keys are absent from the result |
| ProviderSupport.WithoutUnaffected | wro4j-core/src/main/java/ro/isdc/wro/util/provider/UltraConfigurableProviderSupport.java:252 | removing keys that are not there changes nothing |
| ProviderSupport.PutKeysValid | wro4j-core/src/main/java/ro/isdc/wro/util/provider/UltraConfigurableProviderSupport.java:73-76 | putting entries one by one keeps the map well formed |
| ProviderSupport.PutKeysValues | wro4j-core/src/main/java/ro/isdc/wro/util/provider/UltraConfigurableProviderSupport.java:73-76 | after the puts, the put aliases have the new values and every other alias its old one |
| ProviderSupport.PutKeysOrder | wro4j-core/src/main/java/ro/isdc/wro/util/provider/UltraConfigurableProviderSupport.java:181-184 | after the puts, existing aliases keep their positions and new ones follow in put order |
| ProviderSupport.PutAllIntoEmpty | wro4j-core/src/main/java/ro/isdc/wro/util/provider/UltraConfigurableProviderSupport.java:170-175 | `clear` then `putAll(m)` gives exactly `m`, order included |
| ProviderSupport.PutAllOverwrites | wro4j-core/src/main/java/ro/isdc/wro/util/provider/UltraConfigurableProviderSupport.java:181-184 | `putAll(m)` overwrites `m`'s aliases, leaves every other entry, and appends new aliases in `m`'s order |
| ProviderSupport.PutAllIfKeyAbsentValues | wro4j-core/src/main/java/ro/isdc/wro/util/provider/UltraConfigurableProviderSupport.java:249-256 | the aliases are target ∪ source; configured aliases keep their values; new aliases take the source's |
| ProviderSupport.PutAllIfKeyAbsentOrder | wro4j-core/src/main/java/ro/isdc/wro/util/provider/UltraConfigurableProviderSupport.java:249-256 | new aliases come after the existing ones, in the source's order |
| ProviderSupport.PutAllIfKeyAbsentIdempotent | wro4j-core/src/main/java/ro/isdc/wro/util/provider/UltraConfigurableProviderSupport.java:249-256 | layering the same source twice equals layering it once |
| ProviderSupport.PutAllIfKeyAbsentMapSpec | wro4j-core/src/main/java/ro/isdc/wro/util/provider/UltraConfigurableProviderSupport.java:249-256 | the HashMap form: union of aliases, configured values kept, new values from the source, idempotent |
| ProviderSupport.DefaultsNeverOverride | wro4j-core/src/main/java/ro/isdc/wro/util/provider/UltraConfigurableProviderSupport.java:233-242 | no configured alias in any of the five registries is overridden by a default |
| ProviderSupport.UltraConfigurableProviderSupport.constructor | wro4j-core/src/main/java/ro/isdc/wro/util/provider/UltraConfigurableProviderSupport.java:35-39 | the five registries start empty |
| ProviderSupport.UltraConfigurableProviderSupport.ProvideHashStrategies | wro4j-core/src/main/java/ro/isdc/wro/util/provider/UltraConfigurableProviderSupport.java:53-56 | returns a copy of the registry (a value, so later changes on either side do not reach the other) |
| ProviderSupport.UltraConfigurableProviderSupport.SetHashStrategies | wro4j-core/src/main/java/ro/isdc/wro/util/provider/UltraConfigurableProviderSupport.java:62-67 | the registry holds exactly the given entries |
| ProviderSupport.UltraConfigurableProviderSupport.AddAllHashStrategies | wro4j-core/src/main/java/ro/isdc/wro/util/provider/UltraConfigurableProviderSupport.java:73-76 | the given entries override, others are kept |
| ProviderSupport.UltraConfigurableProviderSupport.ProvideLocators | wro4j-core/src/main/java/ro/isdc/wro/util/provider/UltraConfigurableProviderSupport.java:89-92 | returns a copy of the registry |
| ProviderSupport.UltraConfigurableProviderSupport.SetUriLocators | wro4j-core/src/main/java/ro/isdc/wro/util/provider/UltraConfigurableProviderSupport.java:98-103 | the registry holds exactly the given entries |
| ProviderSupport.UltraConfigurableProviderSupport.AddAllUriLocators | wro4j-core/src/main/java/ro/isdc/wro/util/provider/UltraConfigurableProviderSupport.java:109-112 | the given entries override, others are kept |
| ProviderSupport.UltraConfigurableProviderSupport.ProvideNamingStrategies | wro4j-core/src/main/java/ro/isdc/wro/util/provider/UltraConfigurableProviderSupport.java:125-128 | returns a copy of the registry |
| ProviderSupport.UltraConfigurableProviderSupport.SetNamingStrategies | wro4j-core/src/main/java/ro/isdc/wro/util/provider/UltraConfigurableProviderSupport.java:134-139 | the registry holds exactly the given entries |
| ProviderSupport.UltraConfigurableProviderSupport.AddAllNamingStrategies | wro4j-core/src/main/java/ro/isdc/wro/util/provider/UltraConfigurableProviderSupport.java:145-148 | the given entries override, others are kept |
| ProviderSupport.UltraConfigurableProviderSupport.ProvidePreProcessors | wro4j-core/src/main/java/ro/isdc/wro/util/provider/UltraConfigurableProviderSupport.java:161-164 | returns a copy, in insertion order |
| ProviderSupport.UltraConfigurableProviderSupport.SetPreProcessors | wro4j-core/src/main/java/ro/isdc/wro/util/provider/UltraConfigurableProviderSupport.java:170-175 | the registry is exactly the given ordered map |
| ProviderSupport.UltraConfigurableProviderSupport.AddAllPreProcessors | wro4j-core/src/main/java/ro/isdc/wro/util/provider/UltraConfigurableProviderSupport.java:181-184 | values overridden or added; existing order kept, new aliases appended in the given order |
| ProviderSupport.UltraConfigurableProviderSupport.ProvidePostProcessors | wro4j-core/src/main/java/ro/isdc/wro/util/provider/UltraConfigurableProviderSupport.java:197-200 | returns a copy, in insertion order |
| ProviderSupport.UltraConfigurableProviderSupport.SetPostProcessors | wro4j-core/src/main/java/ro/isdc/wro/util/provider/UltraConfigurableProviderSupport.java:206-211 | the registry is exactly the given ordered map |
| ProviderSupport.UltraConfigurableProviderSupport.AddAllPostProcessors | wro4j-core/src/main/java/ro/isdc/wro/util/provider/UltraConfigurableProviderSupport.java:217-220 | values overridden or added; existing order kept, new aliases appended in the given order |
| ProviderSupport.UltraConfigurableProviderSupport.InitWithDefaults | wro4j-core/src/main/java/ro/isdc/wro/util/provider/UltraConfigurableProviderSupport.java:233-242 | each registry becomes the defaults layered under it with `putAllInMapIfKeyAbsent` (so, by `DefaultsNeverOverride`, nothing configured is overridden) |
| PropertyKeys.ParseInt | wro4j-extensions/src/main/java/ro/isdc/wro/extensions/processor/support/processorconfig/ConfigPropertyKey.java:136-139 | a parsed value lies in the 32-bit range |
| PropertyKeys.DecimalStringValue | wro4j-extensions/src/main/java/ro/isdc/wro/extensions/processor/support/processorconfig/ConfigPropertyKey.java:136-139 | the decimal digits of n are non-empty digits whose value is n |
| PropertyKeys.ParseIntRoundTrip | wro4j-extensions/src/main/java/ro/isdc/wro/extensions/processor/support/processorconfig/ConfigPropertyKey.java:136-139 | every 32-bit integer written in decimal parses back to itself |
| PropertyKeys.ParseIntRejectsOutOfRange | wro4j-extensions/src/main/java/ro/isdc/wro/extensions/processor/support/processorconfig/ConfigPropertyKey.java:136-160 | every integer outside the 32-bit range is rejected |
| PropertyKeys.ParseIntRejectsNonDigit | wro4j-extensions/src/main/java/ro/isdc/wro/extensions/processor/support/processorconfig/ConfigPropertyKey.java:136-160 | a non-digit after the optional sign is rejected |
| PropertyKeys.WrapInt32 | wro4j-extensions/src/main/java/ro/isdc/wro/extensions/processor/support/processorconfig/ConfigPropertyKey.java:202-206 | the 32-bit wrap lies in the int range and leaves an int-range value unchanged |
| PropertyKeys.JavaStringHash | wro4j-extensions/src/main/java/ro/isdc/wro/extensions/processor/support/processorconfig/ConfigPropertyKey.java:202-206 | `String.hashCode` lies in the int range |
| PropertyKeys.EqualsIgnoreCase | wro4j-extensions/src/main/java/ro/isdc/wro/extensions/processor/support/processorconfig/ConfigPropertyKey.java:132-135 | `equalsIgnoreCase` with ASCII case folding; `ConvertBooleanNeverThrows` uses it |
| PropertyKeys.ConfigPropertyKey.constructor | wro4j-extensions/src/main/java/ro/isdc/wro/extensions/processor/support/processorconfig/ConfigPropertyKey.java:21-42 | key and type as given; not required; no default |
| PropertyKeys.ConfigPropertyKey.WithRequired | wro4j-extensions/src/main/java/ro/isdc/wro/extensions/processor/support/processorconfig/ConfigPropertyKey.java:43-46 | key, type and flag as given; no default |
| PropertyKeys.ConfigPropertyKey.WithDefault | wro4j-extensions/src/main/java/ro/isdc/wro/extensions/processor/support/processorconfig/ConfigPropertyKey.java:48-54 | every field as given |
| PropertyKeys.ConfigPropertyKey.SetDefaultValue | wro4j-extensions/src/main/java/ro/isdc/wro/extensions/processor/support/processorconfig/ConfigPropertyKey.java:97-100 | the default read back is the one set |
| PropertyKeys.ConfigPropertyKey.ConvertToRequiredType | wro4j-extensions/src/main/java/ro/isdc/wro/extensions/processor/support/processorconfig/ConfigPropertyKey.java:116-170 | null converts to null; every failure is an IllegalArgumentException; every converted value is an instance of the key's type |
| PropertyKeys.ConfigPropertyKey.ToString | wro4j-extensions/src/main/java/ro/isdc/wro/extensions/processor/support/processorconfig/ConfigPropertyKey.java:176-180 | the key string; `EqualsByKeyOnly` shows equal keys print alike |
| PropertyKeys.ConfigPropertyKey.Equals | wro4j-extensions/src/main/java/ro/isdc/wro/extensions/processor/support/processorconfig/ConfigPropertyKey.java:183-199 | equality by key string; `EqualsByKeyOnly` states it |
| PropertyKeys.ConfigPropertyKey.HashCode | wro4j-extensions/src/main/java/ro/isdc/wro/extensions/processor/support/processorconfig/ConfigPropertyKey.java:202-206 | the key string's 32-bit hash, so equal keys hash alike (`EqualsByKeyOnly`) |
| PropertyKeys.EqualsByKeyOnly | wro4j-extensions/src/main/java/ro/isdc/wro/extensions/processor/support/processorconfig/ConfigPropertyKey.java:176-206 | keys are equal iff their key strings are, whatever type, flag or default; equality is symmetric; equal keys hash and print alike |
| PropertyKeys.ConvertStringIsIdentity | wro4j-extensions/src/main/java/ro/isdc/wro/extensions/processor/support/processorconfig/ConfigPropertyKey.java:128-131 | a String key returns its input unchanged |
| PropertyKeys.ConvertBooleanNeverThrows | wro4j-extensions/src/main/java/ro/isdc/wro/extensions/processor/support/processorconfig/ConfigPropertyKey.java:132-135 | a Boolean key never throws and gives true iff the input is "true" in any case |
| PropertyKeys.ConvertIntegerIffParses | wro4j-extensions/src/main/java/ro/isdc/wro/extensions/processor/support/processorconfig/ConfigPropertyKey.java:136-166 | an Integer key converts exactly what `parseInt` accepts, to the parsed value |
| PropertyKeys.ConvertIntegerRoundTrip | wro4j-extensions/src/main/java/ro/isdc/wro/extensions/processor/support/processorconfig/ConfigPropertyKey.java:136-166 | an Integer key reads back every 32-bit integer printed in decimal and rejects every other integer |
| PropertyKeys.ConvertUnsupportedThrows | wro4j-extensions/src/main/java/ro/isdc/wro/extensions/processor/support/processorconfig/ConfigPropertyKey.java:127-166 | any other value type rejects every string with the "Cannot convert" IllegalArgumentException |
| PropertyKeys.EmptyStringNeverNull | wro4j-extensions/src/main/java/ro/isdc/wro/extensions/processor/support/processorconfig/ConfigPropertyKey.java:116-169 | no key converts "" to null: a String key gives "", a Boolean key false, every other key throws |
| ValueResolvers.FullPropertyKey | wro4j-extensions/src/main/java/ro/isdc/wro/extensions/processor/support/processorconfig/valueresolvers/AbstractConfigPropertyResolver.java:22-32 | always ends with the key; a null or empty prefix gives the bare key; otherwise it starts with the prefix, has the delimiter right after it, and has length \|prefix\| + 1 + \|key\| |
| ValueResolvers.ServletContextResolve | wro4j-extensions/src/main/java/ro/isdc/wro/extensions/processor/support/processorconfig/valueresolvers/impl/ServletContextPropertyValueResolver.java:31-53 | a resolved value is an instance of the key's type |
| ValueResolvers.AbsentParameterGivesNull | wro4j-extensions/src/main/java/ro/isdc/wro/extensions/processor/support/processorconfig/valueresolvers/impl/ServletContextPropertyValueResolver.java:37-52 | no init parameter under the full key gives null |
| ValueResolvers.PresentParameterIsConverted | wro4j-extensions/src/main/java/ro/isdc/wro/extensions/processor/support/processorconfig/valueresolvers/impl/ServletContextPropertyValueResolver.java:41-49 | a present parameter gives its conversion, and null where conversion throws |
| ValueResolvers.OnlyFullKeyIsLookedUp | wro4j-extensions/src/main/java/ro/isdc/wro/extensions/processor/support/processorconfig/valueresolvers/impl/ServletContextPropertyValueResolver.java:34-37 | the answer depends only on the parameter under the full key |
| ValueResolvers.BareKeyIgnoredUnderPrefix | wro4j-extensions/src/main/java/ro/isdc/wro/extensions/processor/support/processorconfig/valueresolvers/impl/ServletContextPropertyValueResolver.java:34-37 | under a non-empty prefix, a parameter named by the bare key is not used |
| ValueResolvers.JsDocToolkitParameterName | wro4j-extensions/src/main/java/ro/isdc/wro/extensions/processor/support/jsdoctoolkit/JsDocToolkitConfig.java:20 | with the JsDoc Toolkit config-set key, the parameter looked up is "jsDocToolKit." + key |
| ValueResolvers.UrlKeysNeverResolve | wro4j-extensions/src/main/java/ro/isdc/wro/extensions/processor/support/jsdoctoolkit/JsDocToolkitConfig.java:26-39 | the URL-typed keys never resolve from init parameters, as their conversion always throws |
| Configuration.FirstResolvedIsFirstAnswer | wro4j-extensions/src/main/java/ro/isdc/wro/extensions/processor/support/processorconfig/ConfigSupport.java:164-172 | resolvers are asked in list order: the value found is the answer of a resolver all of whose predecessors answered null; none iff all answered null |
| Configuration.FirstResolved | wro4j-extensions/src/main/java/ro/isdc/wro/extensions/processor/support/processorconfig/ConfigSupport.java:164-172 | the resolver loop; `FirstResolvedIsFirstAnswer` and `LaterResolversIgnored` state what it gives |
| Configuration.LaterResolversIgnored | wro4j-extensions/src/main/java/ro/isdc/wro/extensions/processor/support/processorconfig/ConfigSupport.java:164-172 | once a resolver in the list answers, resolvers added after it make no difference; if none answers, the later ones decide |
| Configuration.AddKeysIndexed | wro4j-extensions/src/main/java/ro/isdc/wro/extensions/processor/support/processorconfig/ConfigSupport.java:55-76 | adding keys keeps the key set indexed by each key's own string |
| Configuration.EntryCheck | wro4j-extensions/src/main/java/ro/isdc/wro/extensions/processor/support/processorconfig/ConfigSupport.java:217-226 | the check as written: a null value fails with an NPE, a failing non-null value with an IllegalArgumentException; the Findings lemmas show what it accepts |
| Configuration.EntryCheckCorrected | wro4j-extensions/src/main/java/ro/isdc/wro/extensions/processor/support/processorconfig/ConfigSupport.java:219-226 | the check the error message describes passes iff the value is non-null and an instance of the key's type |
| Configuration.AcceptedPrefix | wro4j-extensions/src/main/java/ro/isdc/wro/extensions/processor/support/processorconfig/ConfigSupport.java:215-228 | the entries stored before the throw are exactly a passing prefix, and the entry after it fails |
| Configuration.PutPropertiesSnoc | wro4j-extensions/src/main/java/ro/isdc/wro/extensions/processor/support/processorconfig/ConfigSupport.java:215-228 | storing one more entry extends the stored prefix by that entry |
| Configuration.AsWrittenCheckRejectsInstance | wro4j-extensions/src/main/java/ro/isdc/wro/extensions/processor/support/processorconfig/ConfigSupport.java:219 | finding: a `LoggingJsDocToolkitOutputHandler` is an instance of the `outputHandler` key's type yet is rejected |
| Configuration.AsWrittenCheckAcceptsNonInstance | wro4j-extensions/src/main/java/ro/isdc/wro/extensions/processor/support/processorconfig/ConfigSupport.java:219 | finding: a plain `Object` is accepted for every typed key though it is no instance of the type |
| Configuration.CorrectedCheckAcceptsInstances | wro4j-extensions/src/main/java/ro/isdc/wro/extensions/processor/support/processorconfig/ConfigSupport.java:219 | the corrected check accepts every converted value, and agrees with the written one on the final classes String, Boolean and Integer except for plain `Object` values |
| Configuration.ConfigSupport.constructor | wro4j-extensions/src/main/java/ro/isdc/wro/extensions/processor/support/processorconfig/ConfigSupport.java:51-59 | no resolvers, no properties; the expected keys are the given ones, or none for null |
| Configuration.ConfigSupport.WithKeys | wro4j-extensions/src/main/java/ro/isdc/wro/extensions/processor/support/processorconfig/ConfigSupport.java:69-77 | the varargs form: the expected keys are the given ones |
| Configuration.ConfigSupport.AddValueResolver | wro4j-extensions/src/main/java/ro/isdc/wro/extensions/processor/support/processorconfig/ConfigSupport.java:88-91 | appends to the end of the resolver list |
| Configuration.ConfigSupport.SetValueResolvers | wro4j-extensions/src/main/java/ro/isdc/wro/extensions/processor/support/processorconfig/ConfigSupport.java:100-104 | the resolver list becomes exactly the given one |
| Configuration.ConfigSupport.SetExpectedPropertyKeys | wro4j-extensions/src/main/java/ro/isdc/wro/extensions/processor/support/processorconfig/ConfigSupport.java:112-116 | the expected keys become empty |
| Configuration.ConfigSupport.PropertyValue | wro4j-extensions/src/main/java/ro/isdc/wro/extensions/processor/support/processorconfig/ConfigSupport.java:160-180 | an explicit non-null value is returned; null iff there is no explicit value, no resolver answers and the key has no default |
| Configuration.ConfigSupport.InvalidProperties | wro4j-extensions/src/main/java/ro/isdc/wro/extensions/processor/support/processorconfig/ConfigSupport.java:136-153 | every invalid key is a checked key that is required and has no value |
| Configuration.ConfigSupport.IsValid | wro4j-extensions/src/main/java/ro/isdc/wro/extensions/processor/support/processorconfig/ConfigSupport.java:124-127 | valid iff no invalid property; `InvalidPropertiesExactly` states the condition |
| Configuration.ConfigSupport.InvalidPropertiesCorrected | wro4j-extensions/src/main/java/ro/isdc/wro/extensions/processor/support/processorconfig/ConfigSupport.java:130-136 | the documented invalid set: it contains every key the code reports, and each key in it is required without a value or holds a value of the wrong type |
| Configuration.ConfigSupport.IsValidCorrected | wro4j-extensions/src/main/java/ro/isdc/wro/extensions/processor/support/processorconfig/ConfigSupport.java:120-127 | valid as documented iff the documented invalid set is empty |
| Configuration.ConfigSupport.SetPropertyValue | wro4j-extensions/src/main/java/ro/isdc/wro/extensions/processor/support/processorconfig/ConfigSupport.java:193-201 | null for a required key throws the IllegalArgumentException and leaves the properties unchanged; otherwise the value is stored under the key |
| Configuration.ConfigSupport.SetPropertyValues | wro4j-extensions/src/main/java/ro/isdc/wro/extensions/processor/support/processorconfig/ConfigSupport.java:213-229 | the entries are stored in order up to the first one failing the check, which throws that check's exception |
| Configuration.AcceptedPrefixAtLeast | wro4j-extensions/src/main/java/ro/isdc/wro/extensions/processor/support/processorconfig/ConfigSupport.java:215-228 | entries that all pass are all stored |
| Configuration.ExplicitValueWins | wro4j-extensions/src/main/java/ro/isdc/wro/extensions/processor/support/processorconfig/ConfigSupport.java:162-164 | an explicit non-null value is returned, whatever the resolvers answer |
| Configuration.ResolverThenDefault | wro4j-extensions/src/main/java/ro/isdc/wro/extensions/processor/support/processorconfig/ConfigSupport.java:164-179 | without an explicit value: the first resolver answer, else the key's default |
| Configuration.InvalidPropertiesExactly | wro4j-extensions/src/main/java/ro/isdc/wro/extensions/processor/support/processorconfig/ConfigSupport.java:124-153 | a checked key is invalid iff it is required and has no value; the set is valid iff every required checked key has a value |
| Configuration.CheckedKeysAreASet | wro4j-extensions/src/main/java/ro/isdc/wro/extensions/processor/support/processorconfig/ConfigSupport.java:139-143 | the checked keys hold no two equal keys, each under its own key string, as the HashSet guarantees |
| Configuration.AsWrittenIgnoresMistypedValue | wro4j-extensions/src/main/java/ro/isdc/wro/extensions/processor/support/processorconfig/ConfigSupport.java:146 | finding: a Boolean stored under an Integer key is not reported by the code, and is reported by the documented check |
| Configuration.MistypedValueGoesUnreported | wro4j-extensions/src/main/java/ro/isdc/wro/extensions/processor/support/processorconfig/ConfigSupport.java:193-201 | finding: after `setPropertyValue` stores a Boolean under a required Integer key, `isValid` is true and the documented check is false |
| Configuration.CorrectedInvalidPropertiesExactly | wro4j-extensions/src/main/java/ro/isdc/wro/extensions/processor/support/processorconfig/ConfigSupport.java:130-153 | the documented set holds exactly the required keys without a value and the keys with a value of the wrong type, so valid as documented implies valid as written |
| Decorators.NewDecorator | wro4j-core/src/main/java/ro/isdc/wro/util/AbstractDecorator.java:16-19 | fails, with the notNull NPE, iff the decorated object is null; otherwise gives a decorator |
| Decorators.GetDecoratedObject | wro4j-core/src/main/java/ro/isdc/wro/util/AbstractDecorator.java:24-26 | the decorated object is strictly inside the decorator |
| Decorators.OriginalDecoratedObject | wro4j-core/src/main/java/ro/isdc/wro/util/AbstractDecorator.java:31-33 | the original is no decorator and lies inside the chain |
| Decorators.OriginalOf | wro4j-core/src/main/java/ro/isdc/wro/util/AbstractDecorator.java:39-41 | the original is no decorator and is the object itself or lies inside it |
| Decorators.ConstructThenGet | wro4j-core/src/main/java/ro/isdc/wro/util/AbstractDecorator.java:16-26 | `getDecoratedObject` returns exactly the constructor argument |
| Decorators.OriginalOfPlain | wro4j-core/src/main/java/ro/isdc/wro/util/AbstractDecorator.java:39-41 | the original of a non-decorator is itself |
| Decorators.OriginalThroughDecorator | wro4j-core/src/main/java/ro/isdc/wro/util/AbstractDecorator.java:31-40 | a decorator's original is its decorated object's original, and both variants agree |
| Decorators.OriginalIdempotent | wro4j-core/src/main/java/ro/isdc/wro/util/AbstractDecorator.java:39-41 | unwrapping twice equals unwrapping once |
| Decorators.OriginalOfWrap | wro4j-core/src/main/java/ro/isdc/wro/util/AbstractDecorator.java:39-41 | any number of decorators around an object do not change its original |
| Decorators.ChainDecomposition | wro4j-core/src/main/java/ro/isdc/wro/util/AbstractDecorator.java:39-41 | every object is its original wrapped in as many decorators as its depth |
| JsDocUtils.GetJsClassFiles | wro4j-extensions/src/main/java/ro/isdc/wro/extensions/processor/support/jsdoctoolkit/JsDocToolkitUtils.java:23-39 | the result is exactly the class pages of the `symbols` directory |
| JsDocUtils.ClassPages | wro4j-extensions/src/main/java/ro/isdc/wro/extensions/processor/support/jsdoctoolkit/JsDocToolkitUtils.java:23-39 | reference definition of the class pages; `ClassPagesExactly` and `ClassPagesAreHtmlPages` state what it contains |
| JsDocUtils.ChildInjective | wro4j-extensions/src/main/java/ro/isdc/wro/extensions/processor/support/jsdoctoolkit/JsDocToolkitUtils.java:25-33 | distinct names in a directory give distinct files, so the set loses no page |
| JsDocUtils.EndsWithChild | wro4j-extensions/src/main/java/ro/isdc/wro/extensions/processor/support/jsdoctoolkit/JsDocToolkitUtils.java:32-33 | a file keeps its name's suffix |
| JsDocUtils.NoSymbolsDirectory | wro4j-extensions/src/main/java/ro/isdc/wro/extensions/processor/support/jsdoctoolkit/JsDocToolkitUtils.java:28-39 | without a `symbols` directory the result is empty |
| JsDocUtils.ClassPagesExactly | wro4j-extensions/src/main/java/ro/isdc/wro/extensions/processor/support/jsdoctoolkit/JsDocToolkitUtils.java:30-36 | a file of `symbols` is returned iff `symbols` is a directory listing it, it ends with ".html" and is not "_global_.html" |
| JsDocUtils.ClassPagesAreHtmlPages | wro4j-extensions/src/main/java/ro/isdc/wro/extensions/processor/support/jsdoctoolkit/JsDocToolkitUtils.java:25-32 | every returned file lies in `symbols`, ends with ".html" and is not "_global_.html" |

## Left out

- Thread pool interleaving: tasks are taken to run in submission order, each to its end. Results are still read in order, so the merged text is unaffected. The callback counters of a failed parallel run describe the state once every submitted task has finished; at the moment the exception is thrown, later tasks may still be running. An interruption while waiting on a future is not modelled.
- Daemon thread creation, BOM stripping, charset decoding, stream closing, `StopWatch` timing and logging in `PreProcessorExecutor`: resource content is an already decoded string, or the exception raised while reading it.
- `ProcessorsUtils.filterProcessorsToApply`, the `ResourceLocatorFactory` and the `ProcessorsFactory`: they are not part of this model and enter as function-valued collaborators. The `LifecycleCallbackRegistry` is its two counters.
- The `Context` and `Runtime`: the configuration flags and the processor count are parameters.
- `ConfigPropertyKey` Double branch: floating-point parsing is not modelled. A Double-typed key has no case, so it is not representable.
- `ConfigPropertyKey` InputStream branch: the key never receives a locator factory, so this branch always ends in the IllegalArgumentException. It is modelled as that failure.
- PropertyKeys.ParseInt: only ASCII digits are accepted, whereas `Integer.parseInt` also accepts other Unicode decimal digits.
- PropertyKeys.EqualsIgnoreCase: folds ASCII letters only, whereas Java folds the whole of Unicode.
- PropertyKeys.JavaStringHash: hashes one element per Unicode scalar value, because a model string cannot hold a lone surrogate. A character outside the Basic Multilingual Plane is hashed as one code point, where Java hashes its two UTF-16 surrogates, so such keys hash differently.
- The generic `T` of `ConfigPropertyKey<T>` and the unchecked casts in `getPropertyValue` are not modelled: values carry their class at run time.
- Configuration.ConfigSupport.SetPropertyValues: iterates the entries in the order given, which stands for the map's unspecified iteration order. The NullPointerException for a null value carries no message.
- Configuration.ConfigSupport.InvalidProperties: its ensures states one direction; the other is `InvalidPropertiesExactly`.
- Null arguments other than the ones listed under "Java values" are not modelled, because the model's types exclude them. This leaves out three paths:
  - the five `set*` methods of `UltraConfigurableProviderSupport` given null first clear the registry, then throw a NullPointerException from `putAll` (UltraConfigurableProviderSupport.java:62-67 and its siblings);
  - `ConfigSupport.setValueResolvers(null)` clears the list, then throws (ConfigSupport.java:100-104);
  - a `ConfigPropertyKey` built with a null key string throws from `equals` and `hashCode` (ConfigPropertyKey.java:197 and 205).
- ProviderSupport.UltraConfigurableProviderSupport.InitWithDefaults: the maps of `DefaultConfigurableProvider` are a parameter; that class is not part of this model.
- `JsDocToolkitUtils.getJsClassFiles`: the file system is a map from directory paths to their listings. A `listFiles` failure (null) is not modelled.
- JsDocGenerator, JsDocGenerateInvoker, JsDocToolkitProcessor, the info/error streams, the output handlers, BaseWroManagerFactory, ConfigurableNamingStrategy and JsDocToolkitConfig (beyond its config key and the key types) are not part of this model: they are I/O, a JavaScript engine, or wiring of classes not shown.

## Findings

| source | as written | input that shows it | evidently intended | confidence | as-written member | corrected member |
|---|---|---|---|---|---|---|
| wro4j-extensions/src/main/java/ro/isdc/wro/extensions/processor/support/processorconfig/ConfigSupport.java:219 | `value.getClass().isAssignableFrom(key.getValueType())` accepts a value whose class is a supertype of the key's type | a `LoggingJsDocToolkitOutputHandler` for JsDocToolkitConfig's `outputHandler` key (type `JsDocToolkitOutputHandler`) is rejected; a plain `new Object()` is accepted for any key | accept exactly the instances of the key's type (`key.getValueType().isAssignableFrom(value.getClass())`), as the exception message says | high (not executed) | Configuration.AsWrittenCheckRejectsInstance | Configuration.CorrectedCheckAcceptsInstances |
| wro4j-extensions/src/main/java/ro/isdc/wro/extensions/processor/support/processorconfig/ConfigSupport.java:146 | `getInvalidProperties` reports only required keys without a value, though its documentation (lines 120-122 and 132) also counts values that do not match the required type | `setPropertyValue` (no type check) stores `Boolean.TRUE` under a required `Integer` key; `isValid()` then returns true | also report a key whose value is not an instance of its type | medium (not executed; the documentation may be aspirational) | Configuration.MistypedValueGoesUnreported | Configuration.CorrectedInvalidPropertiesExactly |

`Configuration.ConfigSupport.SetPropertyValues` keeps the check as written, and
`Configuration.AsWrittenCheckAcceptsNonInstance` shows its second effect. The corrected
check, `Configuration.EntryCheckCorrected`, is proved to accept exactly the instances of
the key's type.

Where the specification or the source's own documentation and the code differ, the model follows the code:

- The minimize-aware decorator reads the resource's own `isMinimize()` flag, not the
  merge's `minimize` argument.
- A missing resource that is ignored still goes through the processor chain as "".
- The documentation of `convertToRequiredType` (ConfigPropertyKey.java:107-108) says an
  empty string gives null "for some instances". No branch does so: a String key gives "",
  a Boolean key false, and every other key throws (`PropertyKeys.EmptyStringNeverNull`).
- The parallel path surfaces the failure of the lowest-index resource, because futures
  are read in order. It does not surface the first failure to complete.
