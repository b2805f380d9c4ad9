# Tapestry event handlers, aliases, property access and LESS problem rendering in Dafny

This project models four small pieces of Apache Tapestry and proves properties about them.

- **OnEventWorker** (module `OnEventWorker`, with `BodyBuilding` and `Text`).
  - This is the class-transformation worker that wires event-handler methods into a component's `handleComponentEvent` method.
  - A method is an event handler when its name starts with `on` or it carries `@OnEvent`.
  - For each handler, in `findMethods` order, the worker emits:
    - guards on the parameter count, the event type and the component id;
    - a preamble;
    - the call, whose arguments are coerced from the event context;
    - one `end()` for every guard it opened.
  - The generated body is modelled as a sequence of tokens (`Text`, `NewLine`, `Open` for `begin()`, `Close` for `end()`).
  - `BodyBuilder` is a class whose methods append to that sequence.
  - `ClassTransformation` is a class whose `extendMethod` records the extension.
- **AliasManagerImpl** (module `AliasManager`).
  - This resolves alias contributions into the map of aliases for one mode.
  - There are two tiers: the general one and the one of the requested mode, with modes compared ignoring case.
  - In each tier the first contribution for a type wins, and every later one is logged as a conflict.
  - The requested mode's tier overrides the general tier.
  - The four scenarios of `AliasManagerImplTest` are proved as lemmas.
- **PropertyAccessImpl / ClassPropertyAdapter** (module `PropertyAccess`).
  - This is case-insensitive property access on beans.
  - The descriptors of an interface include those of its super-interfaces, collected by a queue.
  - Indexed properties are skipped.
  - Property names are returned sorted.
  - Adapters are cached per class until `clearCache`.
  - Reads and writes fail with the exceptions and messages the tests expect.
  - The cache and the beans are classes that the methods update.
- **The LESS problem renderer of WRO4JModule** (module `LessProblemRenderer`).
  - It renders `message - line N - position N`, leaving out a blank message and non-positive numbers.
  - `Render` builds the list step by step and writes the joined text to a `MarkupWriter`.

The shared modules are `Wrappers` (`Option`, `Result`) and `Text`. `Text` models `startsWith`, `indexOf`, ASCII `equalsIgnoreCase`, `isBlank`, decimal formatting and `join`. It also models the string order `Collections.sort` uses, with an insertion sort. That order compares characters as Unicode scalar values, which is Java's `String.compareTo` order only when no supplementary character is involved (see "## Left out").

## Model

| member | source | states |
|---|---|---|
| OnEventWorker.FindHandlers | 5.0.4/tapestry-core/src/main/java/org/apache/tapestry/internal/services/OnEventWorker.java:44-53 | a method is selected exactly when its name starts with "on" or it has an @OnEvent annotation |
| OnEventWorker.SelectHandlers | 5.0.4/tapestry-core/src/main/java/org/apache/tapestry/internal/services/OnEventWorker.java:44-53 | the filter keeps exactly the accepted methods of the list it is given |
| OnEventWorker.SelectHandlersAppend | 5.0.4/tapestry-core/src/main/java/org/apache/tapestry/internal/services/OnEventWorker.java:53 | selection keeps findMethods order: selecting from a concatenation concatenates the selections |
| OnEventWorker.Transform | 5.0.4/tapestry-core/src/main/java/org/apache/tapestry/internal/services/OnEventWorker.java:42-70 | with no handler the transformation is left unchanged; otherwise handleComponentEvent is extended exactly once, with the body of all handlers |
| OnEventWorker.AddBlocks | 5.0.4/tapestry-core/src/main/java/org/apache/tapestry/internal/services/OnEventWorker.java:64-65 | the loop appends one block per handler, in order |
| OnEventWorker.HandlerBodyShape | 5.0.4/tapestry-core/src/main/java/org/apache/tapestry/internal/services/OnEventWorker.java:59-69 | the body opens a block, starts with the abort check and ends by closing its block; a single handler contributes exactly its own block |
| OnEventWorker.BlockInPlace | 5.0.4/tapestry-core/src/main/java/org/apache/tapestry/internal/services/OnEventWorker.java:64-65 | the blocks of all handlers are the blocks before handler i, then handler i's own block, then the blocks after it |
| OnEventWorker.BlocksAppend | 5.0.4/tapestry-core/src/main/java/org/apache/tapestry/internal/services/OnEventWorker.java:64-65 | the blocks of two runs of handlers are those of the first run followed by those of the second |
| OnEventWorker.HandlerBodyBalanced | 5.0.4/tapestry-core/src/main/java/org/apache/tapestry/internal/services/OnEventWorker.java:59-69 | the generated body is balanced: every begin() has its end() and no end() comes first |
| OnEventWorker.AddCodeForMethod | 5.0.4/tapestry-core/src/main/java/org/apache/tapestry/internal/services/OnEventWorker.java:72-137 | appends the handler's guards, preamble, call and closings, as MethodBlock defines them |
| OnEventWorker.AddGuards | 5.0.4/tapestry-core/src/main/java/org/apache/tapestry/internal/services/OnEventWorker.java:76-109 | appends the three optional guards; closeCount is the number of guards emitted |
| OnEventWorker.AddInvocation | 5.0.4/tapestry-core/src/main/java/org/apache/tapestry/internal/services/OnEventWorker.java:120-133 | a non-void handler's call is wrapped in storeResult and returns true; a void call is a plain statement |
| OnEventWorker.EndBlocks | 5.0.4/tapestry-core/src/main/java/org/apache/tapestry/internal/services/OnEventWorker.java:135-136 | exactly closeCount end() calls are appended |
| OnEventWorker.GuardsNest | 5.0.4/tapestry-core/src/main/java/org/apache/tapestry/internal/services/OnEventWorker.java:77-109 | each guard opened adds one to the nesting depth: the guards open closeCount blocks |
| OnEventWorker.MethodBlockNest | 5.0.4/tapestry-core/src/main/java/org/apache/tapestry/internal/services/OnEventWorker.java:77-136 | one handler's block returns to the depth it started at, so its closings match its guards |
| OnEventWorker.BlocksNest | 5.0.4/tapestry-core/src/main/java/org/apache/tapestry/internal/services/OnEventWorker.java:64-65 | the blocks of all handlers together leave the depth where it was |
| OnEventWorker.CountGuard | 5.0.4/tapestry-core/src/main/java/org/apache/tapestry/internal/services/OnEventWorker.java:79-87 | the count guard is one guard line, emitted exactly when the parameter count is positive |
| OnEventWorker.EventTypeGuard | 5.0.4/tapestry-core/src/main/java/org/apache/tapestry/internal/services/OnEventWorker.java:93-99 | the event type guard is one guard line, emitted exactly when the event type is not blank |
| OnEventWorker.ComponentIdGuard | 5.0.4/tapestry-core/src/main/java/org/apache/tapestry/internal/services/OnEventWorker.java:103-109 | the component id guard is one guard line, emitted exactly when the component id is not blank |
| OnEventWorker.GetParameterCount | 5.0.4/tapestry-core/src/main/java/org/apache/tapestry/internal/services/OnEventWorker.java:173-185 | 0 exactly when there are no parameters, -1 exactly when the first parameter is Object[], and otherwise the number of parameters |
| OnEventWorker.CountGuardPresence | 5.0.4/tapestry-core/src/main/java/org/apache/tapestry/internal/services/OnEventWorker.java:173-185 | the count is 0 exactly for no parameters, -1 exactly when the first is Object[], and the guard, emitted exactly when neither holds, tests the number of parameters |
| OnEventWorker.EventNameEnd | 5.0.4/tapestry-core/src/main/java/org/apache/tapestry/internal/services/OnEventWorker.java:158-164 | the event name ends at the first "From" or at the end of the name, and never inside the leading "on", so the slice is in bounds |
| OnEventWorker.ExtractEventType | 5.0.4/tapestry-core/src/main/java/org/apache/tapestry/internal/services/OnEventWorker.java:154-171 | with an annotation, its value; otherwise the text between "on" and the first "From", with "AnyEvent" in any case meaning "" |
| OnEventWorker.ExtractComponentId | 5.0.4/tapestry-core/src/main/java/org/apache/tapestry/internal/services/OnEventWorker.java:139-152 | with an annotation, its component; otherwise "" without "From", and the text after the first "From" when there is one |
| OnEventWorker.HandlerNameWithComponent | 5.0.4/tapestry-core/src/main/java/org/apache/tapestry/internal/services/OnEventWorker.java:139-171 | a handler named "on" + e + "From" + c, with no "From" in e, handles event type e (or every event for AnyEvent) from component c |
| OnEventWorker.HandlerNameWithoutComponent | 5.0.4/tapestry-core/src/main/java/org/apache/tapestry/internal/services/OnEventWorker.java:139-171 | a handler named "on" + e, with no "From" in e, handles event type e from any component |
| OnEventWorker.AnyIsNotAnyEvent | 5.0.4/tapestry-core/src/main/java/org/apache/tapestry/internal/services/OnEventWorker.java:156-170 | onAnyFromSave handles the event type "Any" from "Save": only the whole name AnyEvent means every event |
| OnEventWorker.AnyEventMeansEveryEvent | 5.0.4/tapestry-core/src/main/java/org/apache/tapestry/internal/services/OnEventWorker.java:156-170 | onAnyEventFromSave handles every event from "Save" |
| OnEventWorker.HandlerNameSplits | 5.0.4/tapestry-core/src/main/java/org/apache/tapestry/internal/services/OnEventWorker.java:139-171 | the name is "on", the event name, then "From" and the component id when there is a "From"; nothing is lost or duplicated |
| OnEventWorker.BuildMethodParameters | 5.0.4/tapestry-core/src/main/java/org/apache/tapestry/internal/services/OnEventWorker.java:187-227 | appends the arguments of the call, separated by ", ", as the Arguments specification lays them out |
| OnEventWorker.AddArgument | 5.0.4/tapestry-core/src/main/java/org/apache/tapestry/internal/services/OnEventWorker.java:195-226 | Object[] gets $1.getContext(); any other type gets coerceContext at the current index, unwrapped for primitives |
| OnEventWorker.ArgumentsPositions | 5.0.4/tapestry-core/src/main/java/org/apache/tapestry/internal/services/OnEventWorker.java:187-227 | one argument per parameter; parameter i uses the index counting the earlier parameters that are not Object[] |
| OnEventWorker.ContextIndicesConsecutive | 5.0.4/tapestry-core/src/main/java/org/apache/tapestry/internal/services/OnEventWorker.java:187-227 | the coerceContext indices are 0, 1, 2, ... with none skipped or repeated, one per parameter that is not Object[] |
| OnEventWorker.RenderArgumentsFlat | 5.0.4/tapestry-core/src/main/java/org/apache/tapestry/internal/services/OnEventWorker.java:187-227 | the arguments open and close no block |
| AliasManager.AliasManagerImpl.GetAliasesForMode | 5.0.4/tapestry-core/src/test/java/org/apache/tapestry/internal/services/AliasManagerImplTest.java:29-129 | returns the general tier overridden by the mode's tier, and logs the conflicts of both tiers in order |
| AliasManager.AliasManagerImpl.BuildMapForMode | 5.0.4/tapestry-core/src/test/java/org/apache/tapestry/internal/services/AliasManagerImplTest.java:53-79 | the loop builds the tier and logs one error for each later contribution of a type already present |
| AliasManager.TierMapFirstWins | 5.0.4/tapestry-core/src/test/java/org/apache/tapestry/internal/services/AliasManagerImplTest.java:53-79 | a type is in the tier exactly when some contribution of the tier is for it, and its value is that of the first such contribution |
| AliasManager.AliasesResolve | 5.0.4/tapestry-core/src/test/java/org/apache/tapestry/internal/services/AliasManagerImplTest.java:106-129 | a type's alias is the first contribution of the requested mode, and only when there is none, the first general one |
| AliasManager.TierAccounting | 5.0.4/tapestry-core/src/test/java/org/apache/tapestry/internal/services/AliasManagerImplTest.java:29-79 | every contribution of a tier either enters the map or is logged: map size plus errors equals the tier's contributions |
| AliasManager.NoConflictWithDistinctTypes | 5.0.4/tapestry-core/src/test/java/org/apache/tapestry/internal/services/AliasManagerImplTest.java:29-51 | with distinct types nothing is logged and every contribution appears with its own value |
| AliasManager.OtherModeIgnored | 5.0.4/tapestry-core/src/test/java/org/apache/tapestry/internal/services/AliasManagerImplTest.java:81-104 | a contribution for another mode changes neither the aliases nor the log, wherever it stands |
| AliasManager.OtherModeIgnoredInTier | 5.0.4/tapestry-core/src/test/java/org/apache/tapestry/internal/services/AliasManagerImplTest.java:81-104 | the same, for one tier |
| AliasManager.AliasesIgnoreCase | 5.0.4/tapestry-core/src/test/java/org/apache/tapestry/internal/services/AliasManagerImplTest.java:116-125 | two spellings of a mode that differ only in case give the same aliases and the same log |
| AliasManager.TierIgnoresCase | 5.0.4/tapestry-core/src/test/java/org/apache/tapestry/internal/services/AliasManagerImplTest.java:116-125 | the same, for one tier |
| AliasManager.NoConflictScenario | 5.0.4/tapestry-core/src/test/java/org/apache/tapestry/internal/services/AliasManagerImplTest.java:29-51 | String to FRED and Runnable to the mock, with nothing logged |
| AliasManager.FirstEntryWinsScenario | 5.0.4/tapestry-core/src/test/java/org/apache/tapestry/internal/services/AliasManagerImplTest.java:53-79 | String keeps FRED, and exactly one error is logged, for FRED-CONFLICT against FRED |
| AliasManager.OtherModesScenario | 5.0.4/tapestry-core/src/test/java/org/apache/tapestry/internal/services/AliasManagerImplTest.java:81-104 | the "bar" contribution plays no part in mode "foo", and nothing is logged |
| AliasManager.ModeSpecificOverridesScenario | 5.0.4/tapestry-core/src/test/java/org/apache/tapestry/internal/services/AliasManagerImplTest.java:106-129 | in mode "BAR" the "bar" contribution overrides the earlier general one, and nothing is logged |
| PropertyAccess.PropertyAccessImpl.GetAdapter | 5.0.4/tapestry-ioc/src/test/java/org/apache/tapestry/ioc/internal/services/PropertyAccessImplTest.java:310-326 | the cached adapter when there is one; otherwise a fresh adapter for the class, which is then cached |
| PropertyAccess.PropertyAccessImpl.ClearCache | 5.0.4/tapestry-ioc/src/test/java/org/apache/tapestry/ioc/internal/services/PropertyAccessImplTest.java:310-326 | the cache is emptied |
| PropertyAccess.ClearWipesInternalCache | 5.0.4/tapestry-ioc/src/test/java/org/apache/tapestry/ioc/internal/services/PropertyAccessImplTest.java:310-326 | two calls give the same adapter; after clearCache a different one |
| PropertyAccess.PropertyAccessImpl.BuildAdapter | 5.0.4/tapestry-ioc/src/test/java/org/apache/tapestry/ioc/internal/services/PropertyAccessImplTest.java:409-419 | the queue loop collects the class's own descriptors and, for an interface, those of all its super-interfaces |
| PropertyAccess.InheritedDescriptors | 5.0.4/tapestry-ioc/src/test/java/org/apache/tapestry/ioc/internal/services/PropertyAccessImplTest.java:409-419 | an interface sees exactly the descriptors declared anywhere in its super-interface tree; a class sees its own |
| PropertyAccess.QueueDescriptorsCoverTree | 5.0.4/tapestry-ioc/src/test/java/org/apache/tapestry/ioc/internal/services/PropertyAccessImplTest.java:409-419 | the breadth-first queue visits the same descriptors as a depth-first walk of the trees |
| PropertyAccess.PropertyAccessImpl.Get | 5.0.4/tapestry-ioc/src/test/java/org/apache/tapestry/ioc/internal/services/PropertyAccessImplTest.java:155-178 | reads through the adapter of the instance's class, with the outcome ReadProperty gives; the cache is unchanged when it already held the class, and otherwise gains exactly an entry for it |
| PropertyAccess.PropertyAccessImpl.Set | 5.0.4/tapestry-ioc/src/test/java/org/apache/tapestry/ioc/internal/services/PropertyAccessImplTest.java:179-202 | writes through the adapter of the instance's class; the outcome and the new values are WriteOutcome and WriteValues; the cache is unchanged when it already held the class, and otherwise gains exactly an entry for it |
| PropertyAccess.ClassPropertyAdapter.Set | 5.0.4/tapestry-ioc/src/test/java/org/apache/tapestry/ioc/internal/services/PropertyAccessImplTest.java:179-202 | the outcome and the new values of the bean are WriteOutcome and WriteValues |
| PropertyAccess.ClassPropertyAdapter.constructor | 5.0.4/tapestry-ioc/src/test/java/org/apache/tapestry/ioc/internal/services/PropertyAccessImplTest.java:420-426 | the loop puts an adapter for each descriptor that is not indexed |
| PropertyAccess.SetThenGet | 5.0.4/tapestry-ioc/src/test/java/org/apache/tapestry/ioc/internal/services/PropertyAccessImplTest.java:179-202 | after a successful set, a get of a readable property returns the value set, whatever the case of either name |
| PropertyAccess.AccessIgnoresCase | 5.0.4/tapestry-ioc/src/test/java/org/apache/tapestry/ioc/internal/services/PropertyAccessImplTest.java:167-202 | spellings that differ only in case find the same adapter, read the same value and write the same property |
| PropertyAccess.FindKeyIgnoresCase | 5.0.4/tapestry-ioc/src/test/java/org/apache/tapestry/ioc/internal/services/PropertyAccessImplTest.java:167-202 | the lookup finds the same entry for spellings that differ only in case |
| PropertyAccess.NoSuchPropertyExactly | 5.0.4/tapestry-ioc/src/test/java/org/apache/tapestry/ioc/internal/services/PropertyAccessImplTest.java:203-219 | get and set fail with "does not contain a property named" exactly when no descriptor that is not indexed has the name, ignoring case |
| PropertyAccess.ClassAdapterQueries | 5.0.4/tapestry-ioc/src/test/java/org/apache/tapestry/ioc/internal/services/PropertyAccessImplTest.java:337-369 | getPropertyAdapter is none exactly when no non-indexed descriptor has the name ignoring case, and then get reports no such property; otherwise it is the adapter of the last matching descriptor, and get of a readable property gives its value |
| PropertyAccess.AccessErrorsFromDescriptor | 5.0.4/tapestry-ioc/src/test/java/org/apache/tapestry/ioc/internal/services/PropertyAccessImplTest.java:221-292 | a missing getter or setter is an unsupported operation; an accessor that throws is reported with the bean and the cause; otherwise the read gives the value |
| PropertyAccess.FailedSetChangesNothing | 5.0.4/tapestry-ioc/src/test/java/org/apache/tapestry/ioc/internal/services/PropertyAccessImplTest.java:221-292 | a set that fails leaves the bean as it was; one that succeeds changes exactly the property it resolved to |
| PropertyAccess.AdapterTableLookup | 5.0.4/tapestry-ioc/src/test/java/org/apache/tapestry/ioc/internal/services/PropertyAccessImplTest.java:337-369 | the adapter for a name is made from the last descriptor, not indexed, with that name ignoring case; None for an unknown name |
| PropertyAccess.AdapterOf | 5.0.4/tapestry-ioc/src/test/java/org/apache/tapestry/ioc/internal/services/PropertyAccessImplTest.java:337-362 | an adapter has the descriptor's name, type and accessors, so isRead and isUpdate follow the getter and setter |
| PropertyAccess.LastMatchExists | 5.0.4/tapestry-ioc/src/test/java/org/apache/tapestry/ioc/internal/services/PropertyAccessImplTest.java:363-369 | there is no matching descriptor exactly when none that is not indexed has the name; a match is one of the descriptors |
| PropertyAccess.LookupPut | 5.0.4/tapestry-ioc/src/test/java/org/apache/tapestry/ioc/internal/services/PropertyAccessImplTest.java:167-178 | after a put, the new adapter is found under every spelling of its name and other names are unaffected |
| PropertyAccess.AdapterTableKeysNamed | 5.0.4/tapestry-ioc/src/test/java/org/apache/tapestry/ioc/internal/services/PropertyAccessImplTest.java:420-426 | every key is the name of a descriptor that is not indexed |
| PropertyAccess.AdapterTableKeysComplete | 5.0.4/tapestry-ioc/src/test/java/org/apache/tapestry/ioc/internal/services/PropertyAccessImplTest.java:381-391 | every descriptor that is not indexed has a key, ignoring case |
| PropertyAccess.ClassPropertyAdapter.GetPropertyNames | 5.0.4/tapestry-ioc/src/test/java/org/apache/tapestry/ioc/internal/services/PropertyAccessImplTest.java:381-391 | the names are sorted and a permutation of the table's keys |
| PropertyAccess.PropertyNames | 5.0.4/tapestry-ioc/src/test/java/org/apache/tapestry/ioc/internal/services/PropertyAccessImplTest.java:381-391 | the names are sorted, come only from descriptors that are not indexed, cover every such descriptor, and are distinct ignoring case |
| PropertyAccess.PropertyAdapter.GetAnnotation | 5.0.4/tapestry-ioc/src/test/java/org/apache/tapestry/ioc/internal/services/PropertyAccessImplTest.java:428-467 | the getter's annotation first, else the setter's, and None exactly when neither accessor has it |
| PropertyAccess.SizeAllAppend | 5.0.4/tapestry-ioc/src/test/java/org/apache/tapestry/ioc/internal/services/PropertyAccessImplTest.java:409-419 | the size of a concatenated queue is the sum of the sizes, so the queue loop terminates |
| LessProblemRenderer.Render | tapestry-wro4j/src/main/java/org/apache/tapestry5/wro4j/modules/WRO4JModule.java:112-136 | writes exactly the joined parts to the writer |
| LessProblemRenderer.Parts | tapestry-wro4j/src/main/java/org/apache/tapestry5/wro4j/modules/WRO4JModule.java:114-133 | at most three parts, none of them blank |
| LessProblemRenderer.MessagePresence | tapestry-wro4j/src/main/java/org/apache/tapestry5/wro4j/modules/WRO4JModule.java:116-119 | the message is among the parts exactly when it is not blank, and then it comes first |
| LessProblemRenderer.LinePresence | tapestry-wro4j/src/main/java/org/apache/tapestry5/wro4j/modules/WRO4JModule.java:125-128 | "line N" follows the message exactly when the line is positive |
| LessProblemRenderer.PositionPresence | tapestry-wro4j/src/main/java/org/apache/tapestry5/wro4j/modules/WRO4JModule.java:130-133 | for every problem, "position N" comes right after the message and line parts that are shown exactly when the position is positive, and it is then the last part |
| LessProblemRenderer.PartCount | tapestry-wro4j/src/main/java/org/apache/tapestry5/wro4j/modules/WRO4JModule.java:114-133 | there is one part per condition that holds |
| LessProblemRenderer.DecodeRendered | tapestry-wro4j/src/main/java/org/apache/tapestry5/wro4j/modules/WRO4JModule.java:114-133 | reading the parts back recovers the problem, except the blank message and non-positive numbers that are left out |
| LessProblemRenderer.SamePartsIffSameNormalized | tapestry-wro4j/src/main/java/org/apache/tapestry5/wro4j/modules/WRO4JModule.java:114-133 | two unambiguous problems (neither message starts with "line " or "position ") render the same parts exactly when they agree on everything shown |
| LessProblemRenderer.PartsOfNormalized | tapestry-wro4j/src/main/java/org/apache/tapestry5/wro4j/modules/WRO4JModule.java:114-133 | rendering depends only on what is shown |
| LessProblemRenderer.EmptyTextIffNothingShown | tapestry-wro4j/src/main/java/org/apache/tapestry5/wro4j/modules/WRO4JModule.java:114-135 | the text is empty exactly when the message is blank and the line and position are not positive |
| LessProblemRenderer.FullText | tapestry-wro4j/src/main/java/org/apache/tapestry5/wro4j/modules/WRO4JModule.java:135 | with all three present the text is message, line, position, separated by " - " |
| LessProblemRenderer.TextWithoutMessage | tapestry-wro4j/src/main/java/org/apache/tapestry5/wro4j/modules/WRO4JModule.java:114-135 | without a message the text starts with the line part |
| LessProblemRenderer.MessageOnly | tapestry-wro4j/src/main/java/org/apache/tapestry5/wro4j/modules/WRO4JModule.java:114-135 | a problem with only a message renders as the message alone |
| LessProblemRenderer.ExampleProblems | tapestry-wro4j/src/main/java/org/apache/tapestry5/wro4j/modules/WRO4JModule.java:112-136 | "oops" at line 3, position 7 renders as "oops - line 3 - position 7"; a blank message alone renders as "" |

## Left out

- The Javassist compilation of the generated body, and the runtime meaning of `ComponentEvent` (`matchesBy...`, `storeResult`, `coerceContext`): only the emitted text is modelled.
- `BodyBuilder` formatting: `add`/`addln` take the text already formatted, and indentation is not modelled.
- `TransformUtils` and `ClassTransformation.getMethodIdentifier` are not part of this model. `WrapperType`, `UnwrapperMethod` and `GetMethodIdentifier` stand in for them. They give the `java.lang` wrapper class of a primitive, `<primitive>Value`, and `Class.method(types)`.
- `ClassTransformation.findMethods` is taken as a given list of methods in a given order. Inherited methods and the class file are not modelled.
- The helper methods `AddGuards`, `AddInvocation`, `EndBlocks`, `AddArgument` and `AddBlocks` split `addCodeForMethod`, `buildMethodParameters` and the loop of `transform` into smaller steps. They emit the same sequence of calls.
- `AliasManagerImpl` and `PropertyAccessImpl`/`ClassPropertyAdapterImpl` are not part of this model. Their behaviour is reconstructed from the tests:
  - a general contribution has the mode "";
  - the case-insensitive adapter map keeps the key as first put and lets a later put replace the adapter;
  - the unsupported-operation messages name the property as the class declares it.
- AliasManager.FirstEntryWinsScenario: the logged message is stated as `ConflictMessage` applied to the contribution and the existing value. That function spells out the test's literal text. The equality with the literal string is not restated as a separate lemma.
- In the alias tests, objects are compared by identity. The model compares them as strings, and the mock Runnable is a fixed string.
- Java reflection and bean introspection: a class is a finite list of property descriptors, with getters, setters and their annotations. An accessor that throws is given its failure message in advance. A field never set reads as `Null`.
- The introspection-failure test with `UglyBean`, the `toString` of `ClassPropertyAdapter`, the property-type test and the integration test (which needs the IoC registry) are not modelled.
- Case-insensitive comparison folds ASCII letters only. The rest of Unicode case folding is not modelled.
- `Sort` orders strings by Unicode scalar values. Java compares UTF-16 code units, so a supplementary character (above U+FFFF) sorts before U+E000-U+FFFF in Java and after them in the model. Property names are sorted as in Java only when they hold no supplementary character.
- Typed writes are not modelled. `Method.invoke` rejects a value of the wrong type, and a null for a primitive setter, and the adapter then reports "Error updating property". The model's `WriteOutcome` does not look at the value, so such a write succeeds in the model and stores the value.
- A property's getter and setter are modelled as reading and writing one value slot, keyed by the property's declared name (`ValueOf`, `WriteValues`). `SetThenGet` holds because of this choice. Real accessors may compute or store anything.
- Markup escaping by `MarkupWriter.write` is not modelled; the writer collects the text as given.
- LessProblemRenderer.DecodeRendered: the read-back is proved for messages that do not start with "line " or "position ". For any other message, the rendered parts are ambiguous.
- LessProblemRenderer.SamePartsIffSameNormalized: proved only for problems whose messages do not start with "line " or "position ". A message "line 5" and a line 5 with no message render the same parts.
