/**
 * OnEventWorker: the class-transformation worker that gives a component class
 * its implementation of handleComponentEvent. It selects the event handler
 * methods of the class (those whose name starts with "on" and those carrying
 * an @OnEvent annotation), works out from each method's name or annotation
 * which event type, which component id and how many context values it
 * handles, and appends to handleComponentEvent one guarded block per handler
 * that invokes it with its coerced context values.
 *
 * The generated text is a sequence of BodyBuilder tokens; its compilation
 * and the run-time behaviour of ComponentEvent are outside the model.
 */
module OnEventWorker {
  import opened Wrappers
  import opened Text
  import opened BodyBuilding

  /** A handler parameter of this type receives the whole event context. */
  const ObjectArrayType: string := "java.lang.Object[]"

  /** The parameter count that matches events with any number of context values. */
  const AnyNumberOfParameters: int := -1

  /** TransformConstants.HANDLE_COMPONENT_EVENT: the method the generated body extends. */
  const HandleComponentEvent: string := "handleComponentEvent"

  /** The first line of the generated body: an aborted event reaches no handler. */
  const AbortCheck: string := "if ($1.isAborted()) return $_;"

  /** An @OnEvent annotation: value() names the event type and component() the component id, as the class declares them. */
  datatype OnEvent = OnEvent(value: string, component: string)

  datatype MethodSignature = MethodSignature(returnType: string, name: string, parameterTypes: seq<string>)

  /** One extendMethod call: the method extended and the body appended to it. */
  datatype Extension = Extension(methodName: string, body: seq<Token>)

  /**
   * The part of a ClassTransformation the worker uses: the methods of the
   * class as findMethods reports them, their @OnEvent annotations, and the
   * extendMethod calls made so far.
   */
  class ClassTransformation {
    const className: string
    const methods: seq<MethodSignature>
    const annotations: map<MethodSignature, OnEvent>
    var extensions: seq<Extension>

    constructor (className: string, methods: seq<MethodSignature>, annotations: map<MethodSignature, OnEvent>)
      ensures this.className == className && this.methods == methods && this.annotations == annotations
      ensures extensions == []
    {
      this.className := className;
      this.methods := methods;
      this.annotations := annotations;
      extensions := [];
    }

    /** getMethodAnnotation(signature, OnEvent.class); None stands for null. */
    function GetMethodAnnotation(signature: MethodSignature): Option<OnEvent> {
      if signature in annotations then Some(annotations[signature]) else None
    }

    /** getMethodIdentifier: the class name, then the method name and parameter types. */
    function GetMethodIdentifier(signature: MethodSignature): string {
      className + "." + signature.name + "(" + Join(signature.parameterTypes, ", ") + ")"
    }

    /** extendMethod: appends `body` to the method named `methodName`. */
    method ExtendMethod(methodName: string, body: seq<Token>)
      modifies this
      ensures extensions == old(extensions) + [Extension(methodName, body)]
    {
      extensions := extensions + [Extension(methodName, body)];
    }
  }

  /** The MethodFilter of transform: a name starting with "on", or an @OnEvent annotation. */
  predicate IsEventHandler(transformation: ClassTransformation, signature: MethodSignature) {
    StartsWith(signature.name, "on") || transformation.GetMethodAnnotation(signature).Some?
  }

  /** The methods among `ms` that the filter accepts, in their order. */
  function SelectHandlers(transformation: ClassTransformation, ms: seq<MethodSignature>): (r: seq<MethodSignature>)
    ensures forall m :: m in r <==> m in ms && IsEventHandler(transformation, m)
  {
    if ms == [] then []
    else
      var rest := SelectHandlers(transformation, ms[..|ms| - 1]);
      assert ms == ms[..|ms| - 1] + [ms[|ms| - 1]];
      if IsEventHandler(transformation, ms[|ms| - 1]) then rest + [ms[|ms| - 1]] else rest
  }

  /** findMethods(filter) with the filter of transform. */
  function FindHandlers(transformation: ClassTransformation): (r: seq<MethodSignature>)
    ensures forall m :: m in r <==> m in transformation.methods && IsEventHandler(transformation, m)
  {
    SelectHandlers(transformation, transformation.methods)
  }

  /**
   * Where the event name ends inside a handler name that starts with "on":
   * at the first "From", or at the end of the name. It is never inside the
   * leading "on", so the slices taken from it are in range.
   */
  function EventNameEnd(name: string): (cut: nat)
    requires StartsWith(name, "on")
    ensures 2 <= cut <= |name|
    ensures cut == |name| || OccursAt(name, "From", cut)
    ensures forall j :: 0 <= j < cut ==> !OccursAt(name, "From", j)
  {
    var fromx := IndexOf(name, "From");
    if fromx == -1 then |name|
    else
      assert name[0] == 'o' && name[1] == 'n';
      assert fromx != 0 && fromx != 1 by {
        assert name[fromx] == "From"[0];
      }
      fromx
  }

  /**
   * extractEventType: the annotation's value() when there is an annotation;
   * otherwise the part of the name between "on" and the first "From", with
   * "AnyEvent" (in any case) meaning every event type, written "".
   */
  function ExtractEventType(signature: MethodSignature, annotation: Option<OnEvent>): (r: string)
    requires annotation.Some? || StartsWith(signature.name, "on")
    ensures annotation.Some? ==> r == annotation.value.value
    ensures annotation.None? ==>
      var eventName := signature.name[2..EventNameEnd(signature.name)];
      r == if EqualsIgnoreCase(eventName, "AnyEvent") then "" else eventName
  {
    if annotation.Some? then annotation.value.value
    else
      var name := signature.name;
      var fromx := IndexOf(name, "From");
      var eventName := if fromx == -1 then name[2..] else name[2..EventNameEnd(name)];
      if EqualsIgnoreCase(eventName, "AnyEvent") then "" else eventName
  }

  /**
   * extractComponentId: the annotation's component() when there is an
   * annotation; otherwise whatever follows the first "From" in the name, or
   * "" when there is no "From".
   */
  function ExtractComponentId(signature: MethodSignature, annotation: Option<OnEvent>): (r: string)
    ensures annotation.Some? ==> r == annotation.value.component
    ensures annotation.None? && IndexOf(signature.name, "From") == -1 ==> r == ""
    ensures annotation.None? && IndexOf(signature.name, "From") != -1 ==>
      signature.name == signature.name[..IndexOf(signature.name, "From")] + "From" + r
  {
    if annotation.Some? then annotation.value.component
    else
      var name := signature.name;
      var fromx := IndexOf(name, "From");
      if fromx < 0 then "" else name[fromx + 4..]
  }

  /** getParameterCount: 0 for none, AnyNumberOfParameters when the first is Object[], else how many there are. */
  function GetParameterCount(signature: MethodSignature): (r: int)
    ensures r == 0 <==> |signature.parameterTypes| == 0
    ensures r == AnyNumberOfParameters <==> |signature.parameterTypes| > 0 && signature.parameterTypes[0] == ObjectArrayType
    ensures r != AnyNumberOfParameters ==> r == |signature.parameterTypes|
  {
    var types := signature.parameterTypes;
    if |types| == 0 then 0
    else if types[0] == ObjectArrayType then AnyNumberOfParameters
    else |types|
  }

  // ---------------------------------------------------------------------
  // Java's primitive types and their wrappers (TransformUtils)

  predicate IsPrimitive(t: string) {
    t in {"boolean", "byte", "char", "short", "int", "long", "float", "double"}
  }

  /** getWrapperTypeName: the wrapper class of a primitive type; any other type is its own. */
  function WrapperType(t: string): string {
    if t == "boolean" then "java.lang.Boolean"
    else if t == "byte" then "java.lang.Byte"
    else if t == "char" then "java.lang.Character"
    else if t == "short" then "java.lang.Short"
    else if t == "int" then "java.lang.Integer"
    else if t == "long" then "java.lang.Long"
    else if t == "float" then "java.lang.Float"
    else if t == "double" then "java.lang.Double"
    else t
  }

  /** getUnwrapperMethodName: the wrapper method that yields the primitive value. */
  function UnwrapperMethod(t: string): string
    requires IsPrimitive(t)
  {
    t + "Value"
  }

  // ---------------------------------------------------------------------
  // The arguments passed to a handler

  /** One argument of the handler call: the whole context, or context value `index` coerced to the parameter's type. */
  datatype Argument = WholeContext | Coerced(index: nat, parameterType: string)

  /** How many of `types` take a context value of their own: every type but Object[]. */
  function ContextCount(types: seq<string>): nat {
    if types == [] then 0
    else ContextCount(types[..|types| - 1]) + (if types[|types| - 1] == ObjectArrayType then 0 else 1)
  }

  /** The argument for a parameter of type `t` when `next` context values are already taken. */
  function ArgumentFor(t: string, next: nat): Argument {
    if t == ObjectArrayType then WholeContext else Coerced(next, t)
  }

  /** The arguments buildMethodParameters passes, parameter by parameter. */
  function Arguments(types: seq<string>): seq<Argument> {
    if types == [] then []
    else
      var init := types[..|types| - 1];
      Arguments(init) + [ArgumentFor(types[|types| - 1], ContextCount(init))]
  }

  /** The context indices the arguments use, in order. */
  function CoercedIndices(args: seq<Argument>): seq<nat> {
    if args == [] then []
    else
      var last := args[|args| - 1];
      CoercedIndices(args[..|args| - 1]) + (if last.Coerced? then [last.index] else [])
  }

  /** 0, 1, ..., n - 1 */
  function Range(n: nat): (r: seq<nat>)
    ensures |r| == n && forall i :: 0 <= i < n ==> r[i] == i
  {
    if n == 0 then [] else Range(n - 1) + [n - 1]
  }

  /** The text of one argument expression. */
  function ArgumentTokens(arg: Argument): seq<Token> {
    match arg
    case WholeContext => [Text("$1.getContext()")]
    case Coerced(index, t) =>
      var wrapper := WrapperType(t);
      UnwrapPrefix(t)
      + [Text("(" + wrapper + ")"),
         Text("$1.coerceContext(" + NatToString(index) + ", \"" + wrapper + "\")")]
      + UnwrapSuffix(t)
  }

  /** A primitive parameter's cast value is parenthesised ... */
  function UnwrapPrefix(t: string): seq<Token> {
    if IsPrimitive(t) then [Text("(")] else []
  }

  /** ... and unwrapped back to the primitive. */
  function UnwrapSuffix(t: string): seq<Token> {
    if IsPrimitive(t) then [Text(")." + UnwrapperMethod(t) + "()")] else []
  }

  /** The argument expressions, separated by ", ". */
  function RenderArguments(args: seq<Argument>): seq<Token> {
    if args == [] then []
    else
      var init := args[..|args| - 1];
      RenderArguments(init) + (if init == [] then [] else [Text(", ")]) + ArgumentTokens(args[|args| - 1])
  }

  /** What buildMethodParameters appends for parameters of the given types. */
  function ParameterTokens(types: seq<string>): seq<Token> {
    RenderArguments(Arguments(types))
  }

  // ---------------------------------------------------------------------
  // The block generated for one handler

  /** A guard line: its condition, its line end and the block it opens. */
  predicate GuardLine(g: seq<Token>) {
    |g| == 3 && g[0].Text? && g[1] == NewLine && g[2] == Open
  }

  /** The count guard: only for a positive parameter count. */
  function CountGuard(signature: MethodSignature): (r: seq<Token>)
    ensures r == [] || GuardLine(r)
    ensures r != [] <==> GetParameterCount(signature) > 0
  {
    var parameterCount := GetParameterCount(signature);
    if parameterCount > 0 then
      [Text("if ($1.matchesByParameterCount(" + NatToString(parameterCount) + "))"), NewLine, Open]
    else []
  }

  /** The event type guard: only for a non-blank event type. */
  function EventTypeGuard(eventType: string): (r: seq<Token>)
    ensures r == [] || GuardLine(r)
    ensures r != [] <==> !IsBlank(eventType)
  {
    if !IsBlank(eventType) then [Text("if ($1.matchesByEventType(\"" + eventType + "\"))"), NewLine, Open] else []
  }

  /** The component id guard: only for a non-blank component id. */
  function ComponentIdGuard(componentId: string): (r: seq<Token>)
    ensures r == [] || GuardLine(r)
    ensures r != [] <==> !IsBlank(componentId)
  {
    if !IsBlank(componentId) then [Text("if ($1.matchesByComponentId(\"" + componentId + "\"))"), NewLine, Open] else []
  }

  /** closeCount: the number of guards opened for the handler. */
  function GuardCount(transformation: ClassTransformation, signature: MethodSignature): nat
    requires IsEventHandler(transformation, signature)
  {
    var annotation := transformation.GetMethodAnnotation(signature);
    (if GetParameterCount(signature) > 0 then 1 else 0)
    + (if !IsBlank(ExtractEventType(signature, annotation)) then 1 else 0)
    + (if !IsBlank(ExtractComponentId(signature, annotation)) then 1 else 0)
  }

  function Guards(transformation: ClassTransformation, signature: MethodSignature): seq<Token>
    requires IsEventHandler(transformation, signature)
  {
    var annotation := transformation.GetMethodAnnotation(signature);
    CountGuard(signature)
    + EventTypeGuard(ExtractEventType(signature, annotation))
    + ComponentIdGuard(ExtractComponentId(signature, annotation))
  }

  /** Marks the event handled and names the handler as the event's source. */
  function Preamble(transformation: ClassTransformation, signature: MethodSignature): seq<Token> {
    [Text("$_ = true;"), NewLine]
    + [Text("$1.setSource(this, \"" + transformation.GetMethodIdentifier(signature) + "\");"), NewLine]
  }

  /** The handler call; a non-void handler's result goes to storeResult, which may end the dispatch. */
  function Invocation(signature: MethodSignature): seq<Token> {
    StoreResultOpen(signature) + [Text(signature.name + "(")] + ParameterTokens(signature.parameterTypes)
    + CallClose(signature)
  }

  function StoreResultOpen(signature: MethodSignature): seq<Token> {
    if signature.returnType != "void" then [Text("if ($1.storeResult(($w) ")] else []
  }

  /** A stored result that says so ends the dispatch: storeResult returns true when the event is aborted. */
  function CallClose(signature: MethodSignature): seq<Token> {
    if signature.returnType != "void" then [Text("))) return true;"), NewLine] else [Text(");"), NewLine]
  }

  /** What addCodeForMethod appends for one handler. */
  function MethodBlock(transformation: ClassTransformation, signature: MethodSignature): seq<Token>
    requires IsEventHandler(transformation, signature)
  {
    Guards(transformation, signature) + Preamble(transformation, signature) + Invocation(signature)
    + Closes(GuardCount(transformation, signature))
  }

  /** The blocks of the handlers, one after the other in their order. */
  function Blocks(transformation: ClassTransformation, handlers: seq<MethodSignature>): seq<Token>
    requires forall m :: m in handlers ==> IsEventHandler(transformation, m)
  {
    if handlers == [] then []
    else
      Blocks(transformation, handlers[..|handlers| - 1])
      + MethodBlock(transformation, handlers[|handlers| - 1])
  }

  /** The body transform appends to handleComponentEvent. */
  function HandlerBody(transformation: ClassTransformation, handlers: seq<MethodSignature>): seq<Token>
    requires forall m :: m in handlers ==> IsEventHandler(transformation, m)
  {
    [Open, Text(AbortCheck), NewLine] + Blocks(transformation, handlers) + [Close]
  }

  // ---------------------------------------------------------------------
  // The worker

  /**
   * transform: extends handleComponentEvent with one block per event
   * handler, and leaves the class alone when it has no event handler.
   */
  method Transform(transformation: ClassTransformation)
    modifies transformation
    ensures FindHandlers(transformation) == [] ==> transformation.extensions == old(transformation.extensions)
    ensures FindHandlers(transformation) != [] ==>
      transformation.extensions == old(transformation.extensions)
        + [Extension(HandleComponentEvent, HandlerBody(transformation, FindHandlers(transformation)))]
  {
    var methods := FindHandlers(transformation);

    // A class without event handlers is left as it is.
    if methods == [] {
      return;
    }

    var builder := new BodyBuilder();
    builder.Begin();
    builder.AddLn(AbortCheck);
    ghost var header := builder.tokens;
    assert header == [Open, Text(AbortCheck), NewLine];

    AddBlocks(builder, methods, transformation);

    builder.End();
    AppendAssociative3(header, Blocks(transformation, methods), [Close]);

    transformation.ExtendMethod(HandleComponentEvent, builder.tokens);
  }

  /** The loop of transform: addCodeForMethod for each handler in turn. */
  method AddBlocks(builder: BodyBuilder, methods: seq<MethodSignature>, transformation: ClassTransformation)
    requires forall m :: m in methods ==> IsEventHandler(transformation, m)
    modifies builder
    ensures builder.tokens == old(builder.tokens) + Blocks(transformation, methods)
  {
    ghost var start := builder.tokens;
    for i := 0 to |methods|
      invariant builder.tokens == start + Blocks(transformation, methods[..i])
    {
      BlocksStep(transformation, methods, i);
      AppendAssociative3(start, Blocks(transformation, methods[..i]), MethodBlock(transformation, methods[i]));
      AddCodeForMethod(builder, methods[i], transformation);
    }
    assert methods[..|methods|] == methods;
  }

  /** addCodeForMethod: the guards, the preamble, the call, and one end() per guard. */
  method AddCodeForMethod(builder: BodyBuilder, signature: MethodSignature, transformation: ClassTransformation)
    requires IsEventHandler(transformation, signature)
    modifies builder
    ensures builder.tokens == old(builder.tokens) + MethodBlock(transformation, signature)
  {
    var closeCount := AddGuards(builder, signature, transformation);
    ghost var afterGuards := builder.tokens;

    // A handler was called, so the event counts as handled whether or not it aborted.
    builder.AddLn("$_ = true;");

    builder.AddLn("$1.setSource(this, \"" + transformation.GetMethodIdentifier(signature) + "\");");
    AppendAssociative3(afterGuards, [Text("$_ = true;"), NewLine],
      [Text("$1.setSource(this, \"" + transformation.GetMethodIdentifier(signature) + "\");"), NewLine]);

    AddInvocation(builder, signature);

    EndBlocks(builder, closeCount);

    ghost var guards, preamble := Guards(transformation, signature), Preamble(transformation, signature);
    AppendAssociative3(old(builder.tokens), guards, preamble);
    AppendAssociative3(old(builder.tokens), guards + preamble, Invocation(signature));
    AppendAssociative3(old(builder.tokens), guards + preamble + Invocation(signature), Closes(closeCount));
  }

  /** The three guards of addCodeForMethod; the result is how many blocks they opened. */
  method AddGuards(builder: BodyBuilder, signature: MethodSignature, transformation: ClassTransformation)
      returns (closeCount: nat)
    requires IsEventHandler(transformation, signature)
    modifies builder
    ensures builder.tokens == old(builder.tokens) + Guards(transformation, signature)
    ensures closeCount == GuardCount(transformation, signature)
  {
    closeCount := 0;

    var parameterCount := GetParameterCount(signature);

    if parameterCount > 0 {
      AddGuard(builder, "if ($1.matchesByParameterCount(" + NatToString(parameterCount) + "))");
      closeCount := closeCount + 1;
    }
    ghost var afterCount := builder.tokens;
    assert afterCount == old(builder.tokens) + CountGuard(signature);

    var annotation := transformation.GetMethodAnnotation(signature);

    var eventType := ExtractEventType(signature, annotation);

    if !IsBlank(eventType) {
      AddGuard(builder, "if ($1.matchesByEventType(\"" + eventType + "\"))");
      closeCount := closeCount + 1;
    }
    ghost var afterEventType := builder.tokens;
    assert afterEventType == afterCount + EventTypeGuard(eventType);

    var componentId := ExtractComponentId(signature, annotation);

    if !IsBlank(componentId) {
      AddGuard(builder, "if ($1.matchesByComponentId(\"" + componentId + "\"))");
      closeCount := closeCount + 1;
    }
    assert builder.tokens == afterEventType + ComponentIdGuard(componentId);
    AppendAssociative3(old(builder.tokens), CountGuard(signature), EventTypeGuard(eventType));
    AppendAssociative3(old(builder.tokens), CountGuard(signature) + EventTypeGuard(eventType), ComponentIdGuard(componentId));
  }

  /** One guard: the condition on a line of its own, then begin(). */
  method AddGuard(builder: BodyBuilder, condition: string)
    modifies builder
    ensures builder.tokens == old(builder.tokens) + [Text(condition), NewLine, Open]
  {
    builder.AddLn(condition);
    builder.Begin();
  }

  /** The handler call; a non-void handler's result is wrapped and passed to storeResult. */
  method AddInvocation(builder: BodyBuilder, signature: MethodSignature)
    modifies builder
    ensures builder.tokens == old(builder.tokens) + Invocation(signature)
  {
    var isNonVoid := signature.returnType != "void";

    if isNonVoid {
      builder.Add("if ($1.storeResult(($w) ");
    }
    ghost var afterOpen := builder.tokens;
    assert afterOpen == old(builder.tokens) + StoreResultOpen(signature);

    builder.Add(signature.name + "(");
    ghost var call := StoreResultOpen(signature) + [Text(signature.name + "(")];
    AppendAssociative3(old(builder.tokens), StoreResultOpen(signature), [Text(signature.name + "(")]);
    ghost var afterName := builder.tokens;
    assert afterName == old(builder.tokens) + call;

    BuildMethodParameters(builder, signature);
    ghost var afterParameters := builder.tokens;
    assert afterParameters == afterName + ParameterTokens(signature.parameterTypes);

    if isNonVoid {
      builder.AddLn("))) return true;");
    } else {
      builder.AddLn(");");
    }
    assert builder.tokens == afterParameters + CallClose(signature);
    AppendAssociative(old(builder.tokens), call, ParameterTokens(signature.parameterTypes), CallClose(signature));
  }

  /** The closing loop of addCodeForMethod: one end() per guard opened. */
  method EndBlocks(builder: BodyBuilder, closeCount: nat)
    modifies builder
    ensures builder.tokens == old(builder.tokens) + Closes(closeCount)
  {
    for i := 0 to closeCount
      invariant builder.tokens == old(builder.tokens) + Closes(i)
    {
      builder.End();
    }
  }

  /**
   * One argument of buildMethodParameters: the whole context for Object[],
   * otherwise the context value at contextIndex coerced to the wrapper type,
   * unwrapped again for a primitive parameter.
   */
  method AddArgument(builder: BodyBuilder, t: string, contextIndex: nat)
    modifies builder
    ensures builder.tokens == old(builder.tokens) + ArgumentTokens(ArgumentFor(t, contextIndex))
  {
    if t == ObjectArrayType {
      builder.Add("$1.getContext()");
      return;
    }
    var isPrimitive := IsPrimitive(t);
    var wrapperType := WrapperType(t);

    if isPrimitive {
      builder.Add("(");
    }
    ghost var afterPrefix := builder.tokens;
    assert afterPrefix == old(builder.tokens) + UnwrapPrefix(t);

    builder.Add("(" + wrapperType + ")");
    builder.Add("$1.coerceContext(" + NatToString(contextIndex) + ", \"" + wrapperType + "\")");
    ghost var cast := [Text("(" + wrapperType + ")"),
      Text("$1.coerceContext(" + NatToString(contextIndex) + ", \"" + wrapperType + "\")")];
    ghost var afterCast := builder.tokens;
    assert afterCast == afterPrefix + cast;

    if isPrimitive {
      builder.Add(")." + UnwrapperMethod(t) + "()");
    }
    assert builder.tokens == afterCast + UnwrapSuffix(t);
    AppendAssociative(old(builder.tokens), UnwrapPrefix(t), cast, UnwrapSuffix(t));
  }

  /**
   * buildMethodParameters: one argument per parameter, separated by ", ".
   * Object[] receives the whole context; every other parameter receives the
   * next context value, coerced to the parameter's (wrapper) type.
   */
  method BuildMethodParameters(builder: BodyBuilder, signature: MethodSignature)
    modifies builder
    ensures builder.tokens == old(builder.tokens) + ParameterTokens(signature.parameterTypes)
  {
    var types := signature.parameterTypes;
    var contextIndex := 0;
    ghost var args: seq<Argument> := [];

    for i := 0 to |types|
      invariant contextIndex == ContextCount(types[..i])
      invariant args == Arguments(types[..i]) && |args| == i
      invariant builder.tokens == old(builder.tokens) + RenderArguments(args)
    {
      ghost var before := builder.tokens;
      ArgumentsStep(types, i);

      if i > 0 {
        builder.Add(", ");
      }
      ghost var afterSeparator := builder.tokens;
      ghost var separator: seq<Token> := if args == [] then [] else [Text(", ")];
      assert afterSeparator == before + separator;

      var t := types[i];
      ghost var arg := ArgumentFor(t, contextIndex);
      AddArgument(builder, t, contextIndex);
      if t != ObjectArrayType {
        contextIndex := contextIndex + 1;
      }
      assert builder.tokens == afterSeparator + ArgumentTokens(arg);
      RenderArgumentsStep(args, arg);
      AppendAssociative(old(builder.tokens), RenderArguments(args), separator, ArgumentTokens(arg));
      args := args + [arg];
    }
    assert types[..|types|] == types;
  }

  // ---------------------------------------------------------------------
  // Properties

  lemma AppendAssociative3(a: seq<Token>, b: seq<Token>, c: seq<Token>)
    ensures a + b + c == a + (b + c)
  {
  }

  /** The blocks of one more handler are those of the ones before and its own. */
  lemma BlocksStep(transformation: ClassTransformation, handlers: seq<MethodSignature>, i: nat)
    requires i < |handlers|
    requires forall m :: m in handlers ==> IsEventHandler(transformation, m)
    ensures Blocks(transformation, handlers[..i + 1])
      == Blocks(transformation, handlers[..i]) + MethodBlock(transformation, handlers[i])
  {
    assert handlers[..i + 1][..i] == handlers[..i];
  }

  lemma AppendAssociative(a: seq<Token>, b: seq<Token>, c: seq<Token>, d: seq<Token>)
    ensures a + b + c + d == a + (b + c + d)
  {
  }

  /** One more parameter adds one argument, which takes a context value unless the parameter is Object[]. */
  lemma ArgumentsStep(types: seq<string>, i: nat)
    requires i < |types|
    ensures ContextCount(types[..i + 1]) == ContextCount(types[..i]) + (if types[i] == ObjectArrayType then 0 else 1)
    ensures Arguments(types[..i + 1]) == Arguments(types[..i]) + [ArgumentFor(types[i], ContextCount(types[..i]))]
  {
    assert types[..i + 1][..i] == types[..i];
  }

  /** One more argument appends its separator and its text. */
  lemma RenderArgumentsStep(args: seq<Argument>, arg: Argument)
    ensures RenderArguments(args + [arg])
      == RenderArguments(args) + (if args == [] then [] else [Text(", ")]) + ArgumentTokens(arg)
  {
    assert (args + [arg])[..|args|] == args;
  }

  // ---------------------------------------------------------------------
  // Handler names

  /**
   * A handler named "on" + e + "From" + c, where e holds no "From", handles
   * event type e ("" when e is AnyEvent in any case) from component c.
   */
  lemma HandlerNameWithComponent(signature: MethodSignature, eventName: string, componentId: string)
    requires signature.name == "on" + eventName + "From" + componentId
    requires forall j :: !OccursAt(eventName, "From", j)
    ensures ExtractEventType(signature, None) == if EqualsIgnoreCase(eventName, "AnyEvent") then "" else eventName
    ensures ExtractComponentId(signature, None) == componentId
  {
    var name := signature.name;
    var k := |eventName| + 2;
    assert name[k..k + 4] == "From";
    forall j | 0 <= j < k
      ensures !OccursAt(name, "From", j)
    {
      if j < 2 {
        assert name[j] != 'F';
      } else if j + 4 <= k {
        assert name[j..j + 4] == eventName[j - 2..j + 2];
        assert !OccursAt(eventName, "From", j - 2);
      } else {
        assert name[k] == 'F';
        assert name[j..j + 4][k - j] == 'F';
      }
    }
    assert OccursAt(name, "From", k);
    assert IndexOf(name, "From") == k;
    assert name[2..k] == eventName;
    assert name[k + 4..] == componentId;
  }

  /**
   * Only the full "AnyEvent" (in any case) means every event: a handler
   * named onAnyFromSave handles the event type "Any" from component "Save".
   */
  lemma AnyIsNotAnyEvent(signature: MethodSignature)
    requires signature.name == "on" + "Any" + "From" + "Save"
    ensures StartsWith(signature.name, "on")
      && ExtractEventType(signature, None) == "Any" && ExtractComponentId(signature, None) == "Save"
  {
    assert |Fold("Any")| == 3 && |Fold("AnyEvent")| == 8;
    forall j
      ensures !OccursAt("Any", "From", j)
    {
    }
    HandlerNameWithComponent(signature, "Any", "Save");
  }

  /** A handler named onAnyEventFromSave handles every event from component "Save". */
  lemma AnyEventMeansEveryEvent(signature: MethodSignature)
    requires signature.name == "on" + "AnyEvent" + "From" + "Save"
    ensures StartsWith(signature.name, "on")
      && ExtractEventType(signature, None) == "" && ExtractComponentId(signature, None) == "Save"
  {
    forall j
      ensures !OccursAt("AnyEvent", "From", j)
    {
      if 0 <= j && j + 4 <= 8 {
        assert "AnyEvent"[j..j + 4][0] == "AnyEvent"[j];
      }
    }
    HandlerNameWithComponent(signature, "AnyEvent", "Save");
  }

  /** A handler named "on" + e, where e holds no "From", handles event type e from any component. */
  lemma HandlerNameWithoutComponent(signature: MethodSignature, eventName: string)
    requires signature.name == "on" + eventName
    requires forall j :: !OccursAt(eventName, "From", j)
    ensures ExtractEventType(signature, None) == if EqualsIgnoreCase(eventName, "AnyEvent") then "" else eventName
    ensures ExtractComponentId(signature, None) == ""
  {
    var name := signature.name;
    forall j | 0 <= j
      ensures !OccursAt(name, "From", j)
    {
      if j < 2 {
        assert name[j] != 'F';
      } else if j + 4 <= |name| {
        assert name[j..j + 4] == eventName[j - 2..j + 2];
        assert !OccursAt(eventName, "From", j - 2);
      }
    }
    assert IndexOf(name, "From") == -1;
    assert name[2..] == eventName;
  }

  /**
   * Every name the filter accepts by its "on" splits back into the leading
   * "on", the event name and, when there is a "From", "From" and the
   * component id: nothing of the name is lost or repeated.
   */
  lemma HandlerNameSplits(signature: MethodSignature)
    requires StartsWith(signature.name, "on")
    ensures var name := signature.name;
      var cut := EventNameEnd(name);
      name == "on" + name[2..cut]
        + (if cut == |name| then "" else "From" + ExtractComponentId(signature, None))
  {
    var name := signature.name;
    var cut := EventNameEnd(name);
    assert name[..2] == "on";
    if cut == |name| {
      assert name == name[..2] + name[2..];
    } else {
      assert IndexOf(name, "From") == cut;
      assert name[cut..cut + 4] == "From";
      assert name == name[..2] + name[2..cut] + name[cut..cut + 4] + name[cut + 4..];
    }
  }

  // ---------------------------------------------------------------------
  // Handler selection and the order of the blocks

  /** Selection keeps the order of findMethods: selecting from a concatenation concatenates the selections. */
  lemma {:induction false} SelectHandlersAppend(transformation: ClassTransformation, a: seq<MethodSignature>, b: seq<MethodSignature>)
    ensures SelectHandlers(transformation, a + b) == SelectHandlers(transformation, a) + SelectHandlers(transformation, b)
    decreases |b|
  {
    if b == [] {
      assert a + b == a;
    } else {
      var init := b[..|b| - 1];
      assert (a + b)[..|a + b| - 1] == a + init;
      assert (a + b)[|a + b| - 1] == b[|b| - 1];
      SelectHandlersAppend(transformation, a, init);
    }
  }

  /** The blocks of two runs of handlers are the blocks of the first run followed by those of the second. */
  lemma {:induction false} BlocksAppend(transformation: ClassTransformation, a: seq<MethodSignature>, b: seq<MethodSignature>)
    requires forall m :: m in a ==> IsEventHandler(transformation, m)
    requires forall m :: m in b ==> IsEventHandler(transformation, m)
    ensures Blocks(transformation, a + b) == Blocks(transformation, a) + Blocks(transformation, b)
    decreases |b|
  {
    if b == [] {
      assert a + b == a;
    } else {
      var init := b[..|b| - 1];
      assert (a + b)[..|a + b| - 1] == a + init;
      assert (a + b)[|a + b| - 1] == b[|b| - 1];
      BlocksAppend(transformation, a, init);
      AppendAssociative3(Blocks(transformation, a), Blocks(transformation, init), MethodBlock(transformation, b[|b| - 1]));
    }
  }

  /** The body opens with the abort check and ends by closing its block; a single handler's block is its MethodBlock. */
  lemma HandlerBodyShape(transformation: ClassTransformation, handlers: seq<MethodSignature>)
    requires forall m :: m in handlers ==> IsEventHandler(transformation, m)
    ensures var body := HandlerBody(transformation, handlers);
      |body| >= 4 && body[..3] == [Open, Text(AbortCheck), NewLine] && body[|body| - 1] == Close
    ensures |handlers| == 1 ==> Blocks(transformation, handlers) == MethodBlock(transformation, handlers[0])
  {
    if |handlers| == 1 {
      assert handlers[..0] == [];
    }
  }

  /** Each handler's MethodBlock sits in its place, between the blocks of the handlers before it and those after it. */
  lemma BlockInPlace(transformation: ClassTransformation, handlers: seq<MethodSignature>, i: nat)
    requires i < |handlers|
    requires forall m :: m in handlers ==> IsEventHandler(transformation, m)
    ensures Blocks(transformation, handlers) == Blocks(transformation, handlers[..i]) + MethodBlock(transformation, handlers[i])
      + Blocks(transformation, handlers[i + 1..])
  {
    assert handlers == handlers[..i + 1] + handlers[i + 1..];
    BlocksAppend(transformation, handlers[..i + 1], handlers[i + 1..]);
    BlocksStep(transformation, handlers, i);
  }

  // ---------------------------------------------------------------------
  // Parameter counts and guards

  /** The count guard is emitted exactly when there are parameters and the first is not Object[]. */
  lemma CountGuardPresence(signature: MethodSignature)
    ensures GetParameterCount(signature) == 0 <==> |signature.parameterTypes| == 0
    ensures GetParameterCount(signature) == AnyNumberOfParameters
      <==> |signature.parameterTypes| > 0 && signature.parameterTypes[0] == ObjectArrayType
    ensures CountGuard(signature) != [] <==>
      |signature.parameterTypes| > 0 && signature.parameterTypes[0] != ObjectArrayType
    ensures CountGuard(signature) != [] ==>
      CountGuard(signature)[0] == Text("if ($1.matchesByParameterCount(" + NatToString(|signature.parameterTypes|) + "))")
  {
  }

  /** One guard line, or none: a guard line opens one block. */
  lemma GuardNest(g: seq<Token>, d: nat)
    requires g == [] || GuardLine(g)
    ensures Nest(g, d) == d + (if g == [] then 0 else 1)
  {
    if g != [] {
      var g1, g2 := g[1..], g[2..];
      assert g1[0] == NewLine && g1[1..] == g2;
      assert g2[0] == Open && g2[1..] == [];
      assert Nest(g2, d) == d + 1;
    }
  }

  /** Three optional guard lines in a row open one block each. */
  lemma ThreeGuardsNest(g1: seq<Token>, g2: seq<Token>, g3: seq<Token>, d: nat)
    requires g1 == [] || GuardLine(g1)
    requires g2 == [] || GuardLine(g2)
    requires g3 == [] || GuardLine(g3)
    ensures Nest(g1 + g2 + g3, d)
      == d + (if g1 == [] then 0 else 1) + (if g2 == [] then 0 else 1) + (if g3 == [] then 0 else 1)
  {
    var n1 := if g1 == [] then 0 else 1;
    var n2 := if g2 == [] then 0 else 1;
    GuardNest(g1, d);
    GuardNest(g2, d + n1);
    GuardNest(g3, d + n1 + n2);
    NestAppend(g1, g2, d);
    NestAppend(g1 + g2, g3, d);
  }

  /** Each guard opened adds one to the depth: after the guards, the depth has grown by closeCount. */
  lemma GuardsNest(transformation: ClassTransformation, signature: MethodSignature, d: nat)
    requires IsEventHandler(transformation, signature)
    ensures Nest(Guards(transformation, signature), d) == d + GuardCount(transformation, signature)
  {
    var annotation := transformation.GetMethodAnnotation(signature);
    ThreeGuardsNest(CountGuard(signature), EventTypeGuard(ExtractEventType(signature, annotation)),
      ComponentIdGuard(ExtractComponentId(signature, annotation)), d);
  }

  lemma FlatAppend(a: seq<Token>, b: seq<Token>)
    requires Flat(a) && Flat(b)
    ensures Flat(a + b)
  {
    forall i | 0 <= i < |a + b|
      ensures (a + b)[i].Text? || (a + b)[i].NewLine?
    {
      if i >= |a| {
        assert (a + b)[i] == b[i - |a|];
      }
    }
  }

  /** The arguments are plain text: they open and close no block. */
  lemma {:induction false} RenderArgumentsFlat(args: seq<Argument>)
    ensures Flat(RenderArguments(args))
    decreases |args|
  {
    if args != [] {
      var init := args[..|args| - 1];
      RenderArgumentsFlat(init);
      var arg := args[|args| - 1];
      var tokens := ArgumentTokens(arg);
      assert Flat(tokens) by {
        if arg.Coerced? {
          var t := arg.parameterType;
          FlatAppend(UnwrapPrefix(t),
            [Text("(" + WrapperType(t) + ")"),
             Text("$1.coerceContext(" + NatToString(arg.index) + ", \"" + WrapperType(t) + "\")")]);
          FlatAppend(UnwrapPrefix(t)
            + [Text("(" + WrapperType(t) + ")"),
               Text("$1.coerceContext(" + NatToString(arg.index) + ", \"" + WrapperType(t) + "\")")],
            UnwrapSuffix(t));
        }
      }
      FlatAppend(RenderArguments(init), if init == [] then [] else [Text(", ")]);
      FlatAppend(RenderArguments(init) + (if init == [] then [] else [Text(", ")]), tokens);
    }
  }

  /** The preamble and the invocation are plain text. */
  lemma InvocationFlat(transformation: ClassTransformation, signature: MethodSignature)
    ensures Flat(Preamble(transformation, signature))
    ensures Flat(Invocation(signature))
  {
    RenderArgumentsFlat(Arguments(signature.parameterTypes));
    FlatAppend(StoreResultOpen(signature), [Text(signature.name + "(")]);
    FlatAppend(StoreResultOpen(signature) + [Text(signature.name + "(")], ParameterTokens(signature.parameterTypes));
    FlatAppend(StoreResultOpen(signature) + [Text(signature.name + "(")] + ParameterTokens(signature.parameterTypes),
      CallClose(signature));
  }

  /**
   * The block of one handler is balanced: its guards open closeCount blocks,
   * the preamble and the call open and close none, and the closeCount end()
   * calls return to the depth the block started at.
   */
  lemma MethodBlockNest(transformation: ClassTransformation, signature: MethodSignature, d: nat)
    requires IsEventHandler(transformation, signature)
    ensures Nest(MethodBlock(transformation, signature), d) == d
  {
    var k := GuardCount(transformation, signature);
    GuardsNest(transformation, signature, d);
    InvocationFlat(transformation, signature);
    OpenFlatClose(Guards(transformation, signature), Preamble(transformation, signature),
      Invocation(signature), k, d);
  }

  /** Blocks opened by `guards`, flat text, then as many end() calls: back to the starting depth. */
  lemma OpenFlatClose(guards: seq<Token>, preamble: seq<Token>, invocation: seq<Token>, k: nat, d: nat)
    requires Nest(guards, d) == d + k
    requires Flat(preamble) && Flat(invocation)
    ensures Nest(guards + preamble + invocation + Closes(k), d) == d
  {
    NestAppend(guards, preamble, d);
    NestFlat(preamble, d + k);
    NestAppend(guards + preamble, invocation, d);
    NestFlat(invocation, d + k);
    NestAppend(guards + preamble + invocation, Closes(k), d);
    NestCloses(k, d);
  }

  /** The blocks of all handlers, one after the other, leave the depth where it was. */
  lemma {:induction false} BlocksNest(transformation: ClassTransformation, handlers: seq<MethodSignature>, d: nat)
    requires forall m :: m in handlers ==> IsEventHandler(transformation, m)
    ensures Nest(Blocks(transformation, handlers), d) == d
    decreases |handlers|
  {
    if handlers != [] {
      var init := handlers[..|handlers| - 1];
      BlocksNest(transformation, init, d);
      MethodBlockNest(transformation, handlers[|handlers| - 1], d);
      NestAppend(Blocks(transformation, init), MethodBlock(transformation, handlers[|handlers| - 1]), d);
    }
  }

  /** The body transform appends to handleComponentEvent is balanced: every begin() has its end(). */
  lemma HandlerBodyBalanced(transformation: ClassTransformation, handlers: seq<MethodSignature>)
    requires forall m :: m in handlers ==> IsEventHandler(transformation, m)
    ensures Balanced(HandlerBody(transformation, handlers))
  {
    BlocksNest(transformation, handlers, 1);
    WrappedBalanced(Blocks(transformation, handlers));
  }

  /** Blocks that leave depth 1 where it was, inside the opening lines and the final end(), are balanced. */
  lemma WrappedBalanced(blocks: seq<Token>)
    requires Nest(blocks, 1) == 1
    ensures Balanced([Open, Text(AbortCheck), NewLine] + blocks + [Close])
  {
    var header: seq<Token> := [Open, Text(AbortCheck), NewLine];
    assert Nest(header, 0) == 1 by {
      var h1, h2 := header[1..], header[2..];
      assert h1[0] == Text(AbortCheck) && h1[1..] == h2;
      assert h2[0] == NewLine && h2[1..] == [];
      assert Nest(h2, 1) == 1;
    }
    NestAppend(header, blocks, 0);
    NestAppend(header + blocks, [Close], 0);
    assert [Close][1..] == [];
  }

  // ---------------------------------------------------------------------
  // Context indices

  /**
   * Parameter i gets the whole context when it is Object[], and otherwise
   * context value number ContextCount(types[..i]): the count of the
   * parameters before it that are not Object[].
   */
  lemma {:induction false} ArgumentsPositions(types: seq<string>)
    ensures |Arguments(types)| == |types|
    ensures forall i :: 0 <= i < |types| ==> Arguments(types)[i] == ArgumentFor(types[i], ContextCount(types[..i]))
    decreases |types|
  {
    if types != [] {
      var init := types[..|types| - 1];
      ArgumentsPositions(init);
      forall i | 0 <= i < |types|
        ensures Arguments(types)[i] == ArgumentFor(types[i], ContextCount(types[..i]))
      {
        if i < |init| {
          assert types[..i] == init[..i];
        }
      }
    }
  }

  /** The coerceContext indices are 0, 1, 2, ...: one per parameter that is not Object[], none skipped or repeated. */
  lemma {:induction false} ContextIndicesConsecutive(types: seq<string>)
    ensures CoercedIndices(Arguments(types)) == Range(ContextCount(types))
    decreases |types|
  {
    if types != [] {
      var init := types[..|types| - 1];
      var args := Arguments(types);
      ContextIndicesConsecutive(init);
      assert args[..|args| - 1] == Arguments(init);
    }
  }
}
