# BoundBox writer, modelled in Dafny

BoundBox generates, for a Java class, an accessor class (a "BoundBox"). The
accessor reaches the class's fields, methods, constructors and inner classes
through reflection. `BoundboxWriter` walks the structural model of the class and
drives Square's `JavaWriter` to emit that accessor. It declares the following:

- a type;
- a static or instance initializer that finds the bound class at run time;
- a constructor that stores the wrapped object;
- a getter for every field, and a setter for every field that is not final;
- a wrapper for every constructor and every method that is not an initializer;
- for every inner class, one accessor per constructor and a nested BoundBox that
  is built the same way, recursively.

The project models this:

- `model.dfy` (`BoundboxModel`): the structural model as values. `ClassInfo`
  covers inner classes too, with `isInnerClass` and `isStaticInnerClass`. The
  import list is the one object the writer changes in place, so it is a class
  (`ImportList`).
- `javawriter.dfy` (`JavaWriterSink`): the `JavaWriter` sink as a class whose
  `trace` records one event per call. Text layout and `%s` substitution are
  not modelled, so a statement keeps its pattern and its arguments apart.
- `collaborators.dfy` (`Collaborators`): the naming and documentation
  generators. Their results are uninterpreted; nothing proved depends on them.
- `strings.dfy`, `helpers.dfy` (`JavaStrings`, `BoundboxHelpers`): the string
  helpers of the writer, as functions and as the loops they are in Java:
  - `StringUtils.join` and `makeParams`;
  - the parameter lists;
  - `createCastReturnTypeString`;
  - `replaceAll("<.*>", "")`, with Java regex semantics;
  - `getSuperClassName` and `getSuperClassChain`.
- `emission.dfy` (`BoundboxEmission`): for every emitting method, a function
  giving the exact event sequence it appends, given the writer's configuration
  (`Config`).
- `writer.dfy` (`BoundboxWriterClass`): the `BoundboxWriter` class itself.
  - Its fields are the four attributes.
  - Its setters keep the other fields unchanged.
  - Each emitting method is proved to append exactly the events of its function
    in `BoundboxEmission`.
  - The methods that only build statements (`MethodLookup`, `MethodInvocation`,
    `WrapperSignature`, `MethodWrapperStatements`, `InnerClassLookupStatements`,
    `InnerClassAccessorStatements` and their inner-class counterparts) are the
    Java method bodies, with their local variables. The `BoundboxEmission`
    functions they are proved equal to are their specifications, and the
    lemmas of `BoundboxProperties`, `BoundboxStructure` and
    `BoundboxSignatures` are stated about those functions.
- `queries.dfy` (`TraceQueries`): views of a trace:
  - the control-flow blocks it opens (`Flows`);
  - the methods it begins (`BeganMethods`);
  - its type declarations as brackets (`Brackets`, `Balanced`).
- `properties.dfy` and `signatures.dfy` (`BoundboxProperties`,
  `BoundboxStructure`, `BoundboxSignatures`): what the generated code looks
  like. These modules prove:
  - the catch order of every reflective call;
  - that BoundBoxes nest as the inner classes do, and that the generated type
    declarations are balanced;
  - that no javadoc is written while javadoc is off;
  - which getters, setters and wrappers the accessor declares, and with which
    signatures;
  - how each lookup and invocation agrees with what it reaches: the declaring
    class, the hidden enclosing instance of a non-static inner class, and the
    receiver `null` for static members.

Source paths below are relative to the repository's source tree; the core is
`boundbox-library/src/main/java/org/boundbox/writer/BoundboxWriter.java`.

## Model

| member | source | states |
|---|---|---|
| BoundboxModel.ImportList.constructor | boundbox-library/src/main/java/org/boundbox/writer/BoundboxWriter.java:92-92 | the list starts with the given imports |
| BoundboxModel.ImportList.Clear | boundbox-library/src/main/java/org/boundbox/writer/BoundboxWriter.java:92-92 | the import list becomes empty |
| BoundboxModel.ImportList.Add | boundbox-library/src/main/java/org/boundbox/writer/BoundboxWriter.java:93-97 | the import is appended at the end, the earlier imports kept in order |
| JavaWriterSink.JavaWriter.constructor | boundbox-library/src/main/java/org/boundbox/writer/BoundboxWriter.java:70-70 | a new writer has written nothing |
| JavaWriterSink.JavaWriter.Emit | boundbox-library/src/main/java/org/boundbox/writer/BoundboxWriter.java:87-88 | one writer call appends exactly its event |
| JavaWriterSink.JavaWriter.EmitAll | boundbox-library/src/main/java/org/boundbox/writer/BoundboxWriter.java:124-130 | a chain of writer calls appends its events in order |
| JavaStrings.JoinSingleton | boundbox-library/src/main/java/org/boundbox/writer/BoundboxWriter.java:669-669 | joining one string yields that string, with no separator |
| JavaStrings.JoinSnoc | boundbox-library/src/main/java/org/boundbox/writer/BoundboxWriter.java:669-669 | one more element adds exactly one separator and the element |
| JavaStrings.JoinEmpty | boundbox-library/src/main/java/org/boundbox/writer/BoundboxWriter.java:701-701 | a join is empty iff it joined nothing or a single empty string, in both directions |
| JavaStrings.NonEmptyOnly | boundbox-library/src/main/java/org/boundbox/writer/BoundboxWriter.java:696-700 | the kept parameters are never empty and are no more than the given ones |
| JavaStrings.NonEmptyOnlyAppend | boundbox-library/src/main/java/org/boundbox/writer/BoundboxWriter.java:696-700 | filtering distributes over concatenation, so order is kept |
| JavaStrings.NonEmptyOnlyMembers | boundbox-library/src/main/java/org/boundbox/writer/BoundboxWriter.java:696-700 | a string is kept iff it was given and is not empty |
| JavaStrings.NonEmptyOnlyNone | boundbox-library/src/main/java/org/boundbox/writer/BoundboxWriter.java:696-700 | nothing is kept iff every parameter is empty |
| JavaStrings.StringLiteral | boundbox-library/src/main/java/org/boundbox/writer/BoundboxWriter.java:329-329 | the literal is the text between two double quotes |
| JavaStrings.Repeat | boundbox-library/src/main/java/org/boundbox/writer/BoundboxWriter.java:624-626 | n copies have n times the length |
| JavaStrings.RepeatSnoc | boundbox-library/src/main/java/org/boundbox/writer/BoundboxWriter.java:624-626 | one more copy is appended at the end |
| BoundboxHelpers.CreateCastReturnTypeString | boundbox-library/src/main/java/org/boundbox/writer/BoundboxWriter.java:636-662 | the cast opens with `(` and always ends with `) ` |
| BoundboxHelpers.CastBoxesPrimitives | boundbox-library/src/main/java/org/boundbox/writer/BoundboxWriter.java:636-662 | each of the eight primitives is cast through its boxed type, and every other type verbatim |
| BoundboxHelpers.CastTargetIsNeverPrimitive | boundbox-library/src/main/java/org/boundbox/writer/BoundboxWriter.java:636-662 | no type the cast names is a primitive |
| BoundboxHelpers.LastCloseOnFirstLine | boundbox-library/src/main/java/org/boundbox/writer/BoundboxWriter.java:673-673 | the greedy `.*>` ends at the last `>` that has no line terminator before it, and at nothing if there is none |
| BoundboxHelpers.ExtractRawType | boundbox-library/src/main/java/org/boundbox/writer/BoundboxWriter.java:672-674 | removing generics never lengthens the name |
| BoundboxHelpers.ExtractRawTypeWithoutClose | boundbox-library/src/main/java/org/boundbox/writer/BoundboxWriter.java:672-674 | a name with no `>` is unchanged |
| BoundboxHelpers.ExtractRawTypeWithoutOpen | boundbox-library/src/main/java/org/boundbox/writer/BoundboxWriter.java:672-674 | a name with no `<` is unchanged |
| BoundboxHelpers.ExtractRawTypeKeepsPrefix | boundbox-library/src/main/java/org/boundbox/writer/BoundboxWriter.java:672-674 | what precedes the first `<` is kept verbatim |
| BoundboxHelpers.LastCloseAt | boundbox-library/src/main/java/org/boundbox/writer/BoundboxWriter.java:673-673 | the greedy match ends at the last `>` on the first line |
| BoundboxHelpers.StripLeadingSpan | boundbox-library/src/main/java/org/boundbox/writer/BoundboxWriter.java:673-673 | a leading `<...>` span up to the last `>` is removed entirely |
| BoundboxHelpers.ExtractRawTypeOnOneLine | boundbox-library/src/main/java/org/boundbox/writer/BoundboxWriter.java:672-674 | on one line, everything from the first `<` to the last `>` goes and nothing else, e.g. `Map<K, List<V>>` becomes `Map` |
| BoundboxHelpers.ExtractRawTypeUnclosedOnOneLine | boundbox-library/src/main/java/org/boundbox/writer/BoundboxWriter.java:672-674 | a `<` with no `>` after it is left in place |
| BoundboxHelpers.GetSuperClassName | boundbox-library/src/main/java/org/boundbox/writer/BoundboxWriter.java:618-620 | the ancestor at the member's level, followed by `.class` |
| BoundboxHelpers.SuperClassChainIsRepeat | boundbox-library/src/main/java/org/boundbox/writer/BoundboxWriter.java:622-628 | the chain is `boundClass` and exactly one `.getSuperclass()` per level |
| BoundboxHelpers.SuperClassChainInjective | boundbox-library/src/main/java/org/boundbox/writer/BoundboxWriter.java:622-628 | different levels give different chains |
| BoundboxHelpers.GetSuperClassChain | boundbox-library/src/main/java/org/boundbox/writer/BoundboxWriter.java:622-628 | the builder loop yields `boundClass` and one `.getSuperclass()` per level |
| BoundboxHelpers.ParameterTypesAndNames | boundbox-library/src/main/java/org/boundbox/writer/BoundboxWriter.java:685-692 | twice as many entries as parameters: type at 2i, name at 2i+1 |
| BoundboxHelpers.ParameterLookupTypes | boundbox-library/src/main/java/org/boundbox/writer/BoundboxWriter.java:664-670 | one entry per parameter: its raw type followed by `.class` |
| BoundboxHelpers.ParameterNames | boundbox-library/src/main/java/org/boundbox/writer/BoundboxWriter.java:677-683 | one entry per parameter: its name, in order |
| BoundboxHelpers.CreateListOfParameterTypesAndNames | boundbox-library/src/main/java/org/boundbox/writer/BoundboxWriter.java:685-692 | the loop builds the type/name list |
| BoundboxHelpers.CreateListOfParametersTypesCommaSeparated | boundbox-library/src/main/java/org/boundbox/writer/BoundboxWriter.java:664-670 | the loop builds the class literals, joined by `, ` |
| BoundboxHelpers.CreateListOfParametersNamesCommaSeparated | boundbox-library/src/main/java/org/boundbox/writer/BoundboxWriter.java:677-683 | the loop builds the names, joined by `, ` |
| BoundboxHelpers.MakeParams | boundbox-library/src/main/java/org/boundbox/writer/BoundboxWriter.java:694-702 | the non-empty arguments, in order, joined by `,` |
| BoundboxHelpers.JoinedParamsPair | boundbox-library/src/main/java/org/boundbox/writer/BoundboxWriter.java:694-702 | with two arguments an empty one vanishes without a stray comma |
| BoundboxHelpers.JoinedParamsEmpty | boundbox-library/src/main/java/org/boundbox/writer/BoundboxWriter.java:694-702 | the result is empty iff every argument is, in both directions |
| BoundboxEmission.HeaderImports | boundbox-library/src/main/java/org/boundbox/writer/BoundboxWriter.java:92-107 | the five reflection imports first; a sixth, the bound class, iff it lives in another, named package |
| BoundboxEmission.FieldsSection | boundbox-library/src/main/java/org/boundbox/writer/BoundboxWriter.java:160-171 | the section is absent iff the class has no fields |
| BoundboxEmission.MethodsSection | boundbox-library/src/main/java/org/boundbox/writer/BoundboxWriter.java:173-182 | the section is absent iff the method list is empty |
| BoundboxEmission.ConstructorsSection | boundbox-library/src/main/java/org/boundbox/writer/BoundboxWriter.java:151-158 | the section is absent iff there are no constructors |
| BoundboxWriterClass.BoundboxWriter.constructor | boundbox-library/src/main/java/org/boundbox/writer/BoundboxWriter.java:43-55 | javadoc on, the default naming generator, the unnamed package |
| BoundboxWriterClass.BoundboxWriter.SetPrefixes | boundbox-library/src/main/java/org/boundbox/writer/BoundboxWriter.java:61-67 | null restores the default naming; two prefixes configure it; fewer fail with `ArrayIndexOutOfBoundsException` and change nothing; other fields kept |
| BoundboxWriterClass.BoundboxWriter.SetWritingJavadoc | boundbox-library/src/main/java/org/boundbox/writer/BoundboxWriter.java:43-45 | sets the flag and nothing else |
| BoundboxWriterClass.BoundboxWriter.SetBoundBoxPackageName | boundbox-library/src/main/java/org/boundbox/writer/BoundboxWriter.java:53-55 | null fails with `NullPointerException` and changes nothing; otherwise sets the package and nothing else |
| BoundboxWriterClass.BoundboxWriter.SetJavadocGenerator | boundbox-library/src/main/java/org/boundbox/writer/BoundboxWriter.java:77-79 | replaces the documentation generator and nothing else |
| BoundboxWriterClass.BoundboxWriter.WriteBoundBoxTo | boundbox-library/src/main/java/org/boundbox/writer/BoundboxWriter.java:69-75 | a fresh writer receives exactly the whole BoundBox |
| BoundboxWriterClass.BoundboxWriter.WriteBoundBox | boundbox-library/src/main/java/org/boundbox/writer/BoundboxWriter.java:81-115 | rewrites the import list as `HeaderImports` says and appends package, imports, javadoc, annotation and root BoundBox |
| BoundboxWriterClass.BoundboxWriter.CreateClassWrapper | boundbox-library/src/main/java/org/boundbox/writer/BoundboxWriter.java:117-204 | appends exactly the root BoundBox |
| BoundboxWriterClass.BoundboxWriter.WriteRootClassLoading | boundbox-library/src/main/java/org/boundbox/writer/BoundboxWriter.java:132-142 | appends the static initializer loading the bound class by name |
| BoundboxWriterClass.BoundboxWriter.CreateInnerClassWrapper | boundbox-library/src/main/java/org/boundbox/writer/BoundboxWriter.java:206-287 | appends exactly the nested BoundBox of an inner class, recursively |
| BoundboxWriterClass.BoundboxWriter.InnerClassLookupStatements | boundbox-library/src/main/java/org/boundbox/writer/BoundboxWriter.java:228-236 | builds the initializer that finds the inner class through the enclosing BoundBox, with `.this` for a non-static inner enclosing class |
| BoundboxWriterClass.BoundboxWriter.WriteBoundBoxConstructor | boundbox-library/src/main/java/org/boundbox/writer/BoundboxWriter.java:144-149 | appends the javadoc and the constructor storing the wrapped object |
| BoundboxWriterClass.BoundboxWriter.WriteConstructorsSection | boundbox-library/src/main/java/org/boundbox/writer/BoundboxWriter.java:151-158 | appends the constructor section, loop proved against its specification |
| BoundboxWriterClass.BoundboxWriter.WriteConstructorEntry | boundbox-library/src/main/java/org/boundbox/writer/BoundboxWriter.java:154-156 | appends an empty line, the javadoc and the wrapper of one constructor |
| BoundboxWriterClass.BoundboxWriter.WriteFieldsSection | boundbox-library/src/main/java/org/boundbox/writer/BoundboxWriter.java:160-171 | appends the field section, loop proved against its specification |
| BoundboxWriterClass.BoundboxWriter.WriteFieldAccessors | boundbox-library/src/main/java/org/boundbox/writer/BoundboxWriter.java:162-170 | appends the getter, and the setter unless the field is final |
| BoundboxWriterClass.BoundboxWriter.WriteMethodsSection | boundbox-library/src/main/java/org/boundbox/writer/BoundboxWriter.java:173-182 | appends the method section, loop proved against its specification |
| BoundboxWriterClass.BoundboxWriter.WriteMethodEntry | boundbox-library/src/main/java/org/boundbox/writer/BoundboxWriter.java:176-180 | appends nothing for an initializer, otherwise an empty line, javadoc and wrapper |
| BoundboxWriterClass.BoundboxWriter.WriteInnerClassSections | boundbox-library/src/main/java/org/boundbox/writer/BoundboxWriter.java:184-200 | appends both inner-class sections when there are inner classes |
| BoundboxWriterClass.BoundboxWriter.WriteInnerClassAccessorsLoop | boundbox-library/src/main/java/org/boundbox/writer/BoundboxWriter.java:186-192 | appends, per inner class, an empty line and its accessors |
| BoundboxWriterClass.BoundboxWriter.WriteInnerClassWrappersLoop | boundbox-library/src/main/java/org/boundbox/writer/BoundboxWriter.java:195-199 | appends, per inner class, an empty line, its javadoc and its nested BoundBox |
| BoundboxWriterClass.BoundboxWriter.WriteInnerClassAccessors | boundbox-library/src/main/java/org/boundbox/writer/BoundboxWriter.java:188-191 | appends, per constructor of the inner class, its javadoc and accessor |
| BoundboxWriterClass.BoundboxWriter.CreateDirectSetter | boundbox-library/src/main/java/org/boundbox/writer/BoundboxWriter.java:293-307 | appends the setter, looking the field up on its declaring class literal |
| BoundboxWriterClass.BoundboxWriter.CreateDirectSetterForInnerClass | boundbox-library/src/main/java/org/boundbox/writer/BoundboxWriter.java:309-323 | appends the setter, looking the field up through the `boundClass` chain |
| BoundboxWriterClass.BoundboxWriter.CreateSetterInvocation | boundbox-library/src/main/java/org/boundbox/writer/BoundboxWriter.java:325-336 | appends the setter body with its single catch clause |
| BoundboxWriterClass.BoundboxWriter.CreateDirectGetter | boundbox-library/src/main/java/org/boundbox/writer/BoundboxWriter.java:338-352 | appends the getter, looking the field up on its declaring class literal |
| BoundboxWriterClass.BoundboxWriter.CreateDirectGetterForInnerClass | boundbox-library/src/main/java/org/boundbox/writer/BoundboxWriter.java:354-368 | appends the getter, looking the field up through the `boundClass` chain |
| BoundboxWriterClass.BoundboxWriter.CreateGetterInvocation | boundbox-library/src/main/java/org/boundbox/writer/BoundboxWriter.java:370-383 | appends the getter body with its cast and single catch clause |
| BoundboxWriterClass.BoundboxWriter.CreateInnerClassAccessor | boundbox-library/src/main/java/org/boundbox/writer/BoundboxWriter.java:385-436 | appends the accessor that instantiates an inner class |
| BoundboxWriterClass.BoundboxWriter.InnerClassAccessorStatements | boundbox-library/src/main/java/org/boundbox/writer/BoundboxWriter.java:385-427 | builds the accessor's signature, class search, constructor lookup and invocation |
| BoundboxWriterClass.BoundboxWriter.CreateMethodWrapper | boundbox-library/src/main/java/org/boundbox/writer/BoundboxWriter.java:438-497 | appends the root-accessor wrapper of a method or constructor |
| BoundboxWriterClass.BoundboxWriter.MethodWrapperStatements | boundbox-library/src/main/java/org/boundbox/writer/BoundboxWriter.java:438-488 | builds the wrapper's body, with the computed return type |
| BoundboxWriterClass.BoundboxWriter.WrapperSignature | boundbox-library/src/main/java/org/boundbox/writer/BoundboxWriter.java:446-459 | builds the wrapper's signature |
| BoundboxWriterClass.BoundboxWriter.MethodLookup | boundbox-library/src/main/java/org/boundbox/writer/BoundboxWriter.java:464-471 | builds the constructor or method lookup statement |
| BoundboxWriterClass.BoundboxWriter.MethodInvocation | boundbox-library/src/main/java/org/boundbox/writer/BoundboxWriter.java:474-486 | builds the `newInstance` or `invoke` statement |
| BoundboxWriterClass.BoundboxWriter.CreateMethodWrapperForInnerClass | boundbox-library/src/main/java/org/boundbox/writer/BoundboxWriter.java:499-556 | appends the wrapper of a method of an inner class |
| BoundboxWriterClass.BoundboxWriter.InnerMethodWrapperStatements | boundbox-library/src/main/java/org/boundbox/writer/BoundboxWriter.java:499-547 | builds the inner wrapper's body |
| BoundboxWriterClass.BoundboxWriter.InnerMethodLookup | boundbox-library/src/main/java/org/boundbox/writer/BoundboxWriter.java:523-529 | builds the lookup through the `boundClass` chain |
| BoundboxWriterClass.BoundboxWriter.InnerMethodInvocation | boundbox-library/src/main/java/org/boundbox/writer/BoundboxWriter.java:534-545 | builds the inner invocation statement |
| BoundboxWriterClass.BoundboxWriter.AddReflectiveCatchClauses | boundbox-library/src/main/java/org/boundbox/writer/BoundboxWriter.java:489-495 | appends the four catch clauses, and a fifth for a constructor |
| BoundboxWriterClass.BoundboxWriter.WriteCodeDecoration | boundbox-library/src/main/java/org/boundbox/writer/BoundboxWriter.java:558-563 | appends one comment per banner line, then an empty line |
| BoundboxWriterClass.BoundboxWriter.WriteJavadocForBoundBoxClass | boundbox-library/src/main/java/org/boundbox/writer/BoundboxWriter.java:565-569 | appends the javadoc iff javadoc is on |
| BoundboxWriterClass.BoundboxWriter.WriteJavadocForBoundBoxConstructor | boundbox-library/src/main/java/org/boundbox/writer/BoundboxWriter.java:571-575 | appends the javadoc iff javadoc is on |
| BoundboxWriterClass.BoundboxWriter.WriteJavadocForBoundConstructor | boundbox-library/src/main/java/org/boundbox/writer/BoundboxWriter.java:577-582 | appends the javadoc iff javadoc is on |
| BoundboxWriterClass.BoundboxWriter.WriteJavadocForBoundSetter | boundbox-library/src/main/java/org/boundbox/writer/BoundboxWriter.java:584-588 | appends the javadoc iff javadoc is on |
| BoundboxWriterClass.BoundboxWriter.WriteJavadocForBoundGetter | boundbox-library/src/main/java/org/boundbox/writer/BoundboxWriter.java:590-594 | appends the javadoc iff javadoc is on |
| BoundboxWriterClass.BoundboxWriter.WriteJavadocForBoundMethod | boundbox-library/src/main/java/org/boundbox/writer/BoundboxWriter.java:596-601 | appends the javadoc iff javadoc is on |
| BoundboxWriterClass.BoundboxWriter.WriteJavadocForBoundInnerClass | boundbox-library/src/main/java/org/boundbox/writer/BoundboxWriter.java:603-607 | appends the javadoc iff javadoc is on |
| BoundboxWriterClass.BoundboxWriter.WriteJavadocForBoundInnerClassAccessor | boundbox-library/src/main/java/org/boundbox/writer/BoundboxWriter.java:609-614 | appends the javadoc iff javadoc is on |
| BoundboxWriterClass.BoundboxWriter.AddReflectionExceptionCatchClause | boundbox-library/src/main/java/org/boundbox/writer/BoundboxWriter.java:630-634 | appends a catch of the exception that rethrows it as `BoundBoxException` |
| BoundboxProperties.CatchClauseFlows | boundbox-library/src/main/java/org/boundbox/writer/BoundboxWriter.java:630-634 | a catch clause opens exactly one block, the catch of that exception |
| BoundboxProperties.ReflectiveCatchOrder | boundbox-library/src/main/java/org/boundbox/writer/BoundboxWriter.java:489-495 | access, argument, invocation-target, no-such-method, in this order; instantiation last and only for a constructor |
| BoundboxProperties.WrapperFlows | boundbox-library/src/main/java/org/boundbox/writer/BoundboxWriter.java:461-496 | a wrapper opens its `try` and then only its catch clauses |
| BoundboxProperties.MethodWrapperCatchOrder | boundbox-library/src/main/java/org/boundbox/writer/BoundboxWriter.java:438-497 | a root wrapper's blocks are `try` and the fixed catch order |
| BoundboxProperties.InnerMethodWrapperCatchOrder | boundbox-library/src/main/java/org/boundbox/writer/BoundboxWriter.java:499-556 | an inner wrapper's blocks are `try` and the fixed catch order |
| BoundboxProperties.InnerClassAccessorCatchOrder | boundbox-library/src/main/java/org/boundbox/writer/BoundboxWriter.java:399-435 | `try`, the loop over declared classes, the name test, then the fixed catch order |
| BoundboxProperties.FieldAccessorsCatchException | boundbox-library/src/main/java/org/boundbox/writer/BoundboxWriter.java:325-383 | getters and setters open `try` and catch `Exception` alone |
| BoundboxProperties.RootClassLoadingCatchOrder | boundbox-library/src/main/java/org/boundbox/writer/BoundboxWriter.java:132-142 | class loading catches `ClassNotFoundException`, then `IllegalArgumentException` |
| BoundboxStructure.NestBalanced | boundbox-library/src/main/java/org/boundbox/writer/BoundboxWriter.java:206-287 | the intended nesting of a class tree is balanced |
| BoundboxStructure.JavadocPlain | boundbox-library/src/main/java/org/boundbox/writer/BoundboxWriter.java:565-569 | a javadoc call writes no type, and nothing while javadoc is off |
| BoundboxStructure.CodeDecorationPlain | boundbox-library/src/main/java/org/boundbox/writer/BoundboxWriter.java:558-563 | a banner writes no type and no javadoc |
| BoundboxStructure.MethodWrapperPlain | boundbox-library/src/main/java/org/boundbox/writer/BoundboxWriter.java:438-497 | a root wrapper opens no type and writes no javadoc |
| BoundboxStructure.InnerMethodWrapperPlain | boundbox-library/src/main/java/org/boundbox/writer/BoundboxWriter.java:499-556 | an inner wrapper opens no type and writes no javadoc |
| BoundboxStructure.FieldAccessorPlain | boundbox-library/src/main/java/org/boundbox/writer/BoundboxWriter.java:162-170 | a field's accessors open no type; their javadoc appears only when it is on |
| BoundboxStructure.InnerClassAccessorPlain | boundbox-library/src/main/java/org/boundbox/writer/BoundboxWriter.java:385-436 | an inner-class accessor opens no type and writes no javadoc |
| BoundboxStructure.FieldsSectionPlain | boundbox-library/src/main/java/org/boundbox/writer/BoundboxWriter.java:160-171 | the field section opens no type |
| BoundboxStructure.MethodsSectionPlain | boundbox-library/src/main/java/org/boundbox/writer/BoundboxWriter.java:173-182 | the method section opens no type |
| BoundboxStructure.ConstructorsSectionPlain | boundbox-library/src/main/java/org/boundbox/writer/BoundboxWriter.java:151-158 | the constructor section opens no type |
| BoundboxStructure.InnerAccessorsPlain | boundbox-library/src/main/java/org/boundbox/writer/BoundboxWriter.java:185-192 | the inner-class accessor section opens no type |
| BoundboxStructure.BoundBoxConstructorPlain | boundbox-library/src/main/java/org/boundbox/writer/BoundboxWriter.java:144-149 | the BoundBox constructor opens no type |
| BoundboxStructure.InnerClassLookupPlain | boundbox-library/src/main/java/org/boundbox/writer/BoundboxWriter.java:228-236 | the inner-class lookup opens no type |
| BoundboxStructure.RootClassLoadingPlain | boundbox-library/src/main/java/org/boundbox/writer/BoundboxWriter.java:132-142 | the class loading opens no type |
| BoundboxStructure.NestAllBalanced | boundbox-library/src/main/java/org/boundbox/writer/BoundboxWriter.java:195-199 | the nesting of a list of sibling inner classes is balanced |
| BoundboxStructure.EmptyLinePlain | boundbox-library/src/main/java/org/boundbox/writer/BoundboxWriter.java:166-166 | an empty line opens no type and is no javadoc |
| BoundboxStructure.CommentLinesPlain | boundbox-library/src/main/java/org/boundbox/writer/BoundboxWriter.java:559-561 | banner comment lines open no type and are no javadoc |
| BoundboxStructure.ReflectiveCatchClausesPlain | boundbox-library/src/main/java/org/boundbox/writer/BoundboxWriter.java:489-495 | the catch clauses of a wrapper open no type and write no javadoc |
| BoundboxStructure.WrapperPlain | boundbox-library/src/main/java/org/boundbox/writer/BoundboxWriter.java:461-497 | a wrapper body built from plain statements opens no type and writes no javadoc |
| BoundboxStructure.FieldsPlain | boundbox-library/src/main/java/org/boundbox/writer/BoundboxWriter.java:162-170 | the field loop opens no type; its javadoc appears only when javadoc is on |
| BoundboxStructure.MethodEntryPlain | boundbox-library/src/main/java/org/boundbox/writer/BoundboxWriter.java:175-181 | one method entry opens no type; javadoc only when it is on |
| BoundboxStructure.MethodsPlain | boundbox-library/src/main/java/org/boundbox/writer/BoundboxWriter.java:175-181 | the method loop opens no type; javadoc only when it is on |
| BoundboxStructure.ConstructorEntryPlain | boundbox-library/src/main/java/org/boundbox/writer/BoundboxWriter.java:153-157 | one constructor entry opens no type; javadoc only when it is on |
| BoundboxStructure.ConstructorsPlain | boundbox-library/src/main/java/org/boundbox/writer/BoundboxWriter.java:153-157 | the constructor loop opens no type; javadoc only when it is on |
| BoundboxStructure.InnerConstructorAccessorsPlain | boundbox-library/src/main/java/org/boundbox/writer/BoundboxWriter.java:188-191 | the accessors of one inner class open no type; javadoc only when it is on |
| BoundboxSignatures.JavadocBeginsNothing | boundbox-library/src/main/java/org/boundbox/writer/BoundboxWriter.java:565-614 | a javadoc block begins no method |
| BoundboxSignatures.AccessorsBegin | boundbox-library/src/main/java/org/boundbox/writer/BoundboxWriter.java:162-170 | getter and optional setter begin their two methods, the setter only for a non-final field |
| BoundboxSignatures.WrapperBegins | boundbox-library/src/main/java/org/boundbox/writer/BoundboxWriter.java:438-556 | a wrapper begins exactly the method its header declares |
| BoundboxStructure.InnerClassWrapperStructure | boundbox-library/src/main/java/org/boundbox/writer/BoundboxWriter.java:206-287 | a nested BoundBox is one type holding the nested BoundBoxes of its inner classes in order; no javadoc while javadoc is off |
| BoundboxStructure.InnerClassSectionsStructure | boundbox-library/src/main/java/org/boundbox/writer/BoundboxWriter.java:184-200 | the inner-class sections hold exactly the nested BoundBoxes of the inner classes |
| BoundboxStructure.InnerWrappersStructure | boundbox-library/src/main/java/org/boundbox/writer/BoundboxWriter.java:195-199 | one nested BoundBox per inner class, in order |
| BoundboxStructure.ClassWrapperStructure | boundbox-library/src/main/java/org/boundbox/writer/BoundboxWriter.java:117-204 | the root BoundBox is one type holding the nested BoundBoxes as the classes nest |
| BoundboxStructure.WriteBoundBoxStructure | boundbox-library/src/main/java/org/boundbox/writer/BoundboxWriter.java:81-115 | the file's types nest as the class tree, so they are balanced; no javadoc at all while javadoc is off |
| BoundboxSignatures.CommentLinesBeginNothing | boundbox-library/src/main/java/org/boundbox/writer/BoundboxWriter.java:559-561 | banner comments begin no method |
| BoundboxSignatures.CodeDecorationBeginsNothing | boundbox-library/src/main/java/org/boundbox/writer/BoundboxWriter.java:558-563 | a banner begins no method |
| BoundboxSignatures.GetterBegins | boundbox-library/src/main/java/org/boundbox/writer/BoundboxWriter.java:370-383 | a getter declares one method: the field's type, no parameters, static with the field |
| BoundboxSignatures.SetterBegins | boundbox-library/src/main/java/org/boundbox/writer/BoundboxWriter.java:325-336 | a setter declares one method: `void`, the field's type and name as parameter, static with the field |
| BoundboxSignatures.FieldAccessorBegins | boundbox-library/src/main/java/org/boundbox/writer/BoundboxWriter.java:162-170 | a field gets its getter, and its setter exactly when it is not final |
| BoundboxSignatures.FieldsBegin | boundbox-library/src/main/java/org/boundbox/writer/BoundboxWriter.java:162-170 | the field loop declares exactly the accessors of `FieldSignatures`, in field order |
| BoundboxSignatures.FieldsSectionBegins | boundbox-library/src/main/java/org/boundbox/writer/BoundboxWriter.java:160-171 | the field section declares exactly those accessors |
| BoundboxSignatures.WrappedMembers | boundbox-library/src/main/java/org/boundbox/writer/BoundboxWriter.java:176-176 | a method gets a wrapper iff it is listed and is not an initializer |
| BoundboxSignatures.RootWrapperBegins | boundbox-library/src/main/java/org/boundbox/writer/BoundboxWriter.java:438-497 | a root wrapper declares exactly its signature |
| BoundboxSignatures.InnerWrapperBegins | boundbox-library/src/main/java/org/boundbox/writer/BoundboxWriter.java:499-556 | an inner wrapper declares exactly its signature |
| BoundboxSignatures.MethodEntryBegins | boundbox-library/src/main/java/org/boundbox/writer/BoundboxWriter.java:176-180 | an initializer declares nothing; any other method its wrapper |
| BoundboxSignatures.MethodsBegin | boundbox-library/src/main/java/org/boundbox/writer/BoundboxWriter.java:173-182 | one wrapper per non-initializer, in list order, and no other method |
| BoundboxSignatures.ConstructorEntryBegins | boundbox-library/src/main/java/org/boundbox/writer/BoundboxWriter.java:153-157 | a constructor entry declares exactly its wrapper |
| BoundboxSignatures.ConstructorsBegin | boundbox-library/src/main/java/org/boundbox/writer/BoundboxWriter.java:151-158 | one wrapper per constructor, in order, and no other method |
| BoundboxSignatures.WrapperSignatureShape | boundbox-library/src/main/java/org/boundbox/writer/BoundboxWriter.java:446-459 | public; static iff static method or constructor; a root constructor returns the bound class, an initializer `void`; parameters and thrown types are the method's |
| BoundboxSignatures.LookupTypesEmpty | boundbox-library/src/main/java/org/boundbox/writer/BoundboxWriter.java:664-670 | the class-literal list is empty iff there are no parameters |
| BoundboxSignatures.RootLookupArguments | boundbox-library/src/main/java/org/boundbox/writer/BoundboxWriter.java:464-471 | constructors and instance initializers are looked up by parameter types on `boundClass`; other methods on their declaring class literal by name and types, with no stray comma |
| BoundboxSignatures.RootInvocationArguments | boundbox-library/src/main/java/org/boundbox/writer/BoundboxWriter.java:474-486 | the receiver (`null` when static) precedes the arguments; a constructor gets the arguments alone |
| BoundboxSignatures.InnerAccessorHiddenArguments | boundbox-library/src/main/java/org/boundbox/writer/BoundboxWriter.java:395-425 | static iff the inner class is; a non-static inner class's constructor is looked up with the enclosing class first and invoked with the bound object first |
| BoundboxSignatures.InnerBoundBoxStaticness | boundbox-library/src/main/java/org/boundbox/writer/BoundboxWriter.java:207-236 | a nested BoundBox, its `boundClass` field and its lookup initializer are all static iff the inner class is; its lookup scans the enclosing BoundBox's `boundClass`, through `.this` exactly when the enclosing class is a non-static inner class |

## Left out

- The naming and documentation generators are not part of this model.
  - Their results (accessor names, javadoc texts, banner lines) are
    uninterpreted functions of the generator object.
  - The prefixes `setPrefixes` gives are recorded in the naming configuration.
- Output is not modelled. This covers the `java.io.Writer`, `IOException`,
  `setCompressingTypes(false)` and JavaWriter's serialisation, indentation and
  `%s` substitution.
  - A statement is its pattern and arguments.
  - `JavaWriter.stringLiteral` is plain quoting, without escaping.
- Logging (`log.info`) is left out because it has no effect on the output.
- `Class.getSimpleName()` of the caught exceptions is written out as the
  exception's simple name.
- A `ClassInfo` whose field, constructor or non-initializer method levels fall
  outside its super-class list makes the Java code throw
  `IndexOutOfBoundsException`. The emitting methods of the root accessor state
  this as a precondition (`RootLevelsValid`) and do not model the exception.
- BoundboxWriterClass.BoundboxWriter.WriteBoundBox: a chain of JavaWriter
  calls is emitted with one `EmitAll`. The trace is the same, but an
  exception in the middle of a chain is not modelled.
- BoundboxWriterClass.BoundboxWriter.CreateClassWrapper: the member loops are
  delegated to section methods. The root and inner BoundBoxes share the
  fields and methods sections through a `forInnerClass` flag. The two field
  loops differ only in the owner expression: `getSuperClassName` (lines 304,
  350) against `getSuperClassChain` (lines 320, 366). The two method loops
  differ in the wrapper they call, `createMethodWrapper` (line 179) against
  `createMethodWrapperForInnerClass` (line 263), so the flag selects
  `MethodWrapperEvents` or `InnerMethodWrapperEvents`. Only the root has a
  constructors loop.
- Behaviour of `BoundboxWriter.java` worth noting, all of it modelled as
  written:
  - The root accessor looks fields and non-constructor methods up on
    `listSuperClassNames[level] + ".class"` (lines 618-620 and 466); only the
    nested BoundBoxes use a `getSuperclass()` chain from `boundClass`
    (lines 622-628).
  - The return cast keeps a generic parameter list (line 655); only the lookup
    class literals strip it (line 667).
  - A nested BoundBox is static exactly when its own inner class is static
    (line 208).
  - Its class lookup is an initializer, static or not (lines 228-236), that
    is not a statement of the constructor.
  - `replaceAll("<.*>", "")` (line 673) uses Java regex semantics. `.` matches
    no line terminator, so a `<` on one line does not pair with a `>` on the
    next.
