/** The `BoundboxWriter` class: its configuration fields and the methods that
    walk a `ClassInfo` and emit the BoundBox source through a `JavaWriter`.
    Every emitting method is proved to append to the writer's trace exactly the
    events its specification function in `BoundboxEmission` lists. */
module BoundboxWriterClass {
  import opened Wrappers
  import opened JavaStrings
  import opened BoundboxModel
  import opened JavaWriterSink
  import opened Collaborators
  import opened BoundboxHelpers
  import opened BoundboxEmission
  import opened TraceAlgebra

  class BoundboxWriter {
    var isWritingJavadoc: bool
    var namingGenerator: NamingGenerator
    var javadocGenerator: DocumentationGenerator
    var boundBoxPackageName: string

    /** The configuration every emitting method reads. */
    function Cfg(): Config
      reads this
    {
      Config(isWritingJavadoc, namingGenerator, javadocGenerator, boundBoxPackageName)
    }

    /** Javadoc on, the default naming generator, the default documentation
        generator, and the unnamed package. */
    constructor (defaultDocumentation: DocumentationGenerator)
      ensures javadocGenerator == defaultDocumentation
      ensures isWritingJavadoc && namingGenerator == DefaultNamingGenerator && boundBoxPackageName == ""
    {
      javadocGenerator := defaultDocumentation;
      isWritingJavadoc := true;
      namingGenerator := DefaultNamingGenerator;
      boundBoxPackageName := "";
    }

    /** `setPrefixes`: a null array restores the default naming generator; an
        array with fewer than two entries fails and changes nothing. */
    method SetPrefixes(prefixes: Option<seq<string>>) returns (outcome: Outcome)
      modifies this
      ensures outcome.Fail? <==> prefixes.Some? && |prefixes.value| < 2
      ensures outcome.Fail? ==> outcome.exception == "ArrayIndexOutOfBoundsException"
                                && namingGenerator == old(namingGenerator)
      ensures outcome.Pass? && prefixes.None? ==> namingGenerator == DefaultNamingGenerator
      ensures outcome.Pass? && prefixes.Some? ==>
                namingGenerator == NamingGenerator(Some((prefixes.value[0], prefixes.value[1])))
      ensures isWritingJavadoc == old(isWritingJavadoc) && javadocGenerator == old(javadocGenerator)
      ensures boundBoxPackageName == old(boundBoxPackageName)
    {
      if prefixes.Some? {
        if |prefixes.value| < 2 {
          return Fail("ArrayIndexOutOfBoundsException");
        }
        namingGenerator := NamingGenerator(Some((prefixes.value[0], prefixes.value[1])));
      } else {
        namingGenerator := DefaultNamingGenerator;
      }
      outcome := Pass;
    }

    /** The generated `setWritingJavadoc`. */
    method SetWritingJavadoc(isWritingJavadoc: bool)
      modifies this
      ensures this.isWritingJavadoc == isWritingJavadoc
      ensures namingGenerator == old(namingGenerator) && javadocGenerator == old(javadocGenerator)
      ensures boundBoxPackageName == old(boundBoxPackageName)
    {
      this.isWritingJavadoc := isWritingJavadoc;
    }

    /** The generated `setBoundBoxPackageName`, which refuses null. */
    method SetBoundBoxPackageName(boundBoxPackageName: Option<string>) returns (outcome: Outcome)
      modifies this
      ensures outcome.Fail? <==> boundBoxPackageName.None?
      ensures outcome.Fail? ==> outcome.exception == "NullPointerException"
                                && this.boundBoxPackageName == old(this.boundBoxPackageName)
      ensures outcome.Pass? ==> this.boundBoxPackageName == boundBoxPackageName.value
      ensures isWritingJavadoc == old(isWritingJavadoc) && namingGenerator == old(namingGenerator)
      ensures javadocGenerator == old(javadocGenerator)
    {
      if boundBoxPackageName.None? {
        return Fail("NullPointerException");
      }
      this.boundBoxPackageName := boundBoxPackageName.value;
      outcome := Pass;
    }

    /** `setJavadocGenerator`. */
    method SetJavadocGenerator(javadocGenerator: DocumentationGenerator)
      modifies this
      ensures this.javadocGenerator == javadocGenerator
      ensures isWritingJavadoc == old(isWritingJavadoc) && namingGenerator == old(namingGenerator)
      ensures boundBoxPackageName == old(boundBoxPackageName)
    {
      this.javadocGenerator := javadocGenerator;
    }

    /** The public `writeBoundBox`: a fresh writer over the output receives the whole BoundBox. */
    method WriteBoundBoxTo(classInfo: ClassInfo) returns (writer: JavaWriter)
      requires RootLevelsValid(classInfo)
      modifies classInfo.listImports
      ensures fresh(writer)
      ensures classInfo.listImports.items == HeaderImports(classInfo, boundBoxPackageName)
      ensures writer.trace == WriteBoundBoxEvents(Cfg(), classInfo)
    {
      hide WriteBoundBoxEvents;
      writer := new JavaWriter();
      WriteBoundBox(classInfo, writer);
    }

    /** `writeBoundBox`: rewrites the class's import list and emits the whole BoundBox. */
    method WriteBoundBox(classInfo: ClassInfo, writer: JavaWriter)
      requires RootLevelsValid(classInfo)
      modifies writer, classInfo.listImports
      ensures classInfo.listImports.items == HeaderImports(classInfo, boundBoxPackageName)
      ensures writer.trace == old(writer.trace) + WriteBoundBoxEvents(Cfg(), classInfo)
    {
      hide ClassWrapperEvents, JavadocEvents;
      ghost var t0 := writer.trace;
      var boundBoxClassName := CreateBoundBoxName(namingGenerator, classInfo);
      var packageLines := [EmitPackage(boundBoxPackageName), EmitEmptyLine];
      writer.EmitAll(packageLines);
      var imports := classInfo.listImports;
      imports.Clear();
      imports.Add("java.lang.reflect.Field");
      imports.Add("java.lang.reflect.Method");
      imports.Add("java.lang.reflect.Constructor");
      imports.Add("java.lang.reflect.InvocationTargetException");
      imports.Add("org.boundbox.BoundBoxException");
      assert imports.items == ReflectionImports;
      if classInfo.boundClassPackageName != boundBoxPackageName {
        var boundClassFqn := classInfo.boundClassName;
        if classInfo.boundClassPackageName != "" {
          boundClassFqn := classInfo.boundClassPackageName + "." + boundClassFqn;
          imports.Add(boundClassFqn);
        }
      }
      assert imports.items == HeaderImports(classInfo, boundBoxPackageName);
      var importLines := [EmitImports(imports.items), EmitEmptyLine];
      writer.EmitAll(importLines);
      ghost var header := [EmitPackage(boundBoxPackageName), EmitEmptyLine,
                           EmitImports(HeaderImports(classInfo, boundBoxPackageName)), EmitEmptyLine];
      assert packageLines + importLines == header;
      AppendAssoc(t0, packageLines, importLines);
      WriteJavadocForBoundBoxClass(writer, classInfo);
      ghost var javadoc := JavadocEvents(Cfg(), GenerateJavadocForBoundBoxClass(javadocGenerator, classInfo));
      AppendAssoc(t0, header, javadoc);
      writer.Emit(EmitAnnotation(SuppressWarningsAll));
      AppendAssoc(t0, header + javadoc, [EmitAnnotation(SuppressWarningsAll)]);
      ghost var done := header + javadoc + [EmitAnnotation(SuppressWarningsAll)];
      CreateClassWrapper(writer, classInfo, boundBoxClassName);
      AppendAssoc(t0, done, ClassWrapperEvents(Cfg(), classInfo, boundBoxClassName));
    }

    /** `createClassWrapper`. */
    method CreateClassWrapper(writer: JavaWriter, classInfo: ClassInfo, boundBoxClassName: string)
      requires RootLevelsValid(classInfo)
      modifies writer
      ensures writer.trace == old(writer.trace) + ClassWrapperEvents(Cfg(), classInfo, boundBoxClassName)
    {
      hide RootClassLoadingEvents, BoundBoxConstructorEvents, ConstructorsSection, FieldsSection,
           MethodsSection, InnerClassSections;
      ghost var t0 := writer.trace;
      ghost var cfg := Cfg();
      var typeHeader := [
        BeginType(boundBoxClassName, "class", {Public, Final}, None),
        EmitEmptyLine,
        EmitField(ObjectClassName, "boundObject", {Private}),
        EmitField("Class<?>", "boundClass", {Private, Static}),
        EmitEmptyLine];
      writer.EmitAll(typeHeader);
      WriteRootClassLoading(writer, classInfo);
      AppendAssoc(t0, typeHeader, RootClassLoadingEvents(classInfo));
      ghost var done := typeHeader + RootClassLoadingEvents(classInfo);
      WriteBoundBoxConstructor(writer, classInfo, boundBoxClassName);
      AppendAssoc(t0, done, BoundBoxConstructorEvents(cfg, classInfo, boundBoxClassName));
      done := done + BoundBoxConstructorEvents(cfg, classInfo, boundBoxClassName);
      WriteConstructorsSection(writer, classInfo);
      AppendAssoc(t0, done, ConstructorsSection(cfg, classInfo));
      done := done + ConstructorsSection(cfg, classInfo);
      WriteFieldsSection(writer, classInfo, false);
      AppendAssoc(t0, done, FieldsSection(cfg, classInfo, false));
      done := done + FieldsSection(cfg, classInfo, false);
      WriteMethodsSection(writer, classInfo, false);
      AppendAssoc(t0, done, MethodsSection(cfg, classInfo, false));
      done := done + MethodsSection(cfg, classInfo, false);
      WriteInnerClassSections(writer, classInfo);
      AppendAssoc(t0, done, InnerClassSections(cfg, classInfo));
      done := done + InnerClassSections(cfg, classInfo);
      writer.Emit(EndType);
      AppendAssoc(t0, done, [EndType]);
    }

    /** The static initializer of `createClassWrapper` that loads the bound class by
        name, so that classes of the default package are reachable too. */
    method WriteRootClassLoading(writer: JavaWriter, classInfo: ClassInfo)
      modifies writer
      ensures writer.trace == old(writer.trace) + RootClassLoadingEvents(classInfo)
    {
      hide StringLiteral, CatchClause;
      ghost var t1 := writer.trace;
      var boundClassFqn := classInfo.boundClassName;
      if classInfo.boundClassPackageName != "" {
        boundClassFqn := classInfo.boundClassPackageName + "." + boundClassFqn;
      }
      var loadBoundClassStatement := "boundClass = Class.forName(" + StringLiteral(boundClassFqn) + ")";
      var tryLoad := [BeginInitializer(true), BeginControlFlow("try"),
                      EmitStatement(loadBoundClassStatement, []), EndControlFlow];
      writer.EmitAll(tryLoad);
      AddReflectionExceptionCatchClause(writer, "ClassNotFoundException");
      AppendAssoc(t1, tryLoad, CatchClause("ClassNotFoundException"));
      AddReflectionExceptionCatchClause(writer, "IllegalArgumentException");
      AppendAssoc(t1, tryLoad + CatchClause("ClassNotFoundException"), CatchClause("IllegalArgumentException"));
      writer.EmitAll([EndInitializer, EmitEmptyLine]);
      AppendAssoc(t1, tryLoad + CatchClause("ClassNotFoundException") + CatchClause("IllegalArgumentException"),
                  [EndInitializer, EmitEmptyLine]);
    }

    /** `createInnerClassWrapper`. */
    method CreateInnerClassWrapper(writer: JavaWriter, classInfo: ClassInfo, innerClassInfo: ClassInfo)
      modifies writer
      ensures writer.trace == old(writer.trace) + InnerClassWrapperEvents(Cfg(), classInfo, innerClassInfo)
      decreases innerClassInfo, 2
    {
      hide InnerClassLookupEvents, BoundBoxConstructorEvents, FieldsSection, MethodsSection, InnerClassSections;
      ghost var t0 := writer.trace;
      ghost var cfg := Cfg();
      var modifiers: set<Modifier> := {Public, Final};
      if innerClassInfo.isStaticInnerClass {
        modifiers := modifiers + {Static};
      }
      var boundBoxClassName := CreateBoundBoxName(namingGenerator, innerClassInfo);
      var boundClassFieldModifiers: set<Modifier> := {Private};
      if innerClassInfo.isStaticInnerClass {
        boundClassFieldModifiers := boundClassFieldModifiers + {Static};
      }
      var typeHeader := [
        BeginType(boundBoxClassName, "class", modifiers, None),
        EmitEmptyLine,
        EmitField(ObjectClassName, "boundObject", {Private}),
        EmitField("Class<?>", "boundClass", boundClassFieldModifiers),
        EmitEmptyLine];
      writer.EmitAll(typeHeader);
      var lookup := InnerClassLookupStatements(classInfo, innerClassInfo);
      writer.EmitAll(lookup);
      AppendAssoc(t0, typeHeader, lookup);
      ghost var done := typeHeader + lookup;
      WriteBoundBoxConstructor(writer, innerClassInfo, boundBoxClassName);
      AppendAssoc(t0, done, BoundBoxConstructorEvents(cfg, innerClassInfo, boundBoxClassName));
      done := done + BoundBoxConstructorEvents(cfg, innerClassInfo, boundBoxClassName);
      WriteFieldsSection(writer, innerClassInfo, true);
      AppendAssoc(t0, done, FieldsSection(cfg, innerClassInfo, true));
      done := done + FieldsSection(cfg, innerClassInfo, true);
      WriteMethodsSection(writer, innerClassInfo, true);
      AppendAssoc(t0, done, MethodsSection(cfg, innerClassInfo, true));
      done := done + MethodsSection(cfg, innerClassInfo, true);
      WriteInnerClassSections(writer, innerClassInfo);
      AppendAssoc(t0, done, InnerClassSections(cfg, innerClassInfo));
      done := done + InnerClassSections(cfg, innerClassInfo);
      writer.Emit(EndType);
      AppendAssoc(t0, done, [EndType]);
    }

    /** The static or instance initializer of `createInnerClassWrapper` that finds the
        inner class among the declared classes of the enclosing BoundBox's bound class. */
    method InnerClassLookupStatements(classInfo: ClassInfo, innerClassInfo: ClassInfo) returns (lookup: seq<Event>)
      ensures lookup == InnerClassLookupEvents(Cfg(), classInfo, innerClassInfo)
    {
      hide StringLiteral;
      var enclosingBoundBoxClassName := CreateBoundBoxName(namingGenerator, classInfo);
      var thisOrNot := if classInfo.isInnerClass && !classInfo.isStaticInnerClass then ".this" else "";
      lookup := [
        BeginInitializer(innerClassInfo.isStaticInnerClass),
        EmitSingleLineComment(InnerClassLookupComment, [InnerClassLookupReference]),
        BeginControlFlow("for(Class<?> clazz : " + enclosingBoundBoxClassName + thisOrNot
                         + ".boundClass.getDeclaredClasses())"),
        BeginControlFlow("if( clazz.getSimpleName().equals(" + StringLiteral(innerClassInfo.boundClassName) + "))"),
        EmitStatement("boundClass = clazz", []),
        EndControlFlow,
        EndControlFlow,
        EndInitializer,
        EmitEmptyLine];
    }

    /** The constructor block shared by `createClassWrapper` and `createInnerClassWrapper`. */
    method WriteBoundBoxConstructor(writer: JavaWriter, classInfo: ClassInfo, boundBoxClassName: string)
      modifies writer
      ensures writer.trace == old(writer.trace) + BoundBoxConstructorEvents(Cfg(), classInfo, boundBoxClassName)
    {
      ghost var t0 := writer.trace;
      WriteJavadocForBoundBoxConstructor(writer, classInfo);
      var constructorBlock := [
        BeginMethod(None, boundBoxClassName, {Public}, [ObjectClassName, "boundObject"], []),
        EmitStatement("this.boundObject = boundObject", []),
        EndMethod,
        EmitEmptyLine];
      writer.EmitAll(constructorBlock);
      AppendAssoc(t0, JavadocEvents(Cfg(), GenerateJavadocForBoundBoxConstructor(javadocGenerator, classInfo)), constructorBlock);
    }

    /** The constructors section of `createClassWrapper`. */
    method WriteConstructorsSection(writer: JavaWriter, classInfo: ClassInfo)
      requires MethodLevelsBelow(classInfo.listConstructorInfos, |classInfo.listSuperClassNames|, false)
      modifies writer
      ensures writer.trace == old(writer.trace) + ConstructorsSection(Cfg(), classInfo)
    {
      hide ConstructorEntryEvents, CodeDecorationEvents;
      var ms := classInfo.listConstructorInfos;
      if ms != [] {
        ghost var t0 := writer.trace;
        WriteCodeDecoration(writer, "Access to constructors");
        ghost var t1 := writer.trace;
        var i := 0;
        while i < |ms|
          invariant 0 <= i <= |ms|
          invariant writer.trace == t1 + ConstructorsEvents(Cfg(), classInfo, ms[..i])
        {
          assert ms[..i + 1][..i] == ms[..i];
          WriteConstructorEntry(writer, classInfo, ms[i]);
          AppendAssoc(t1, ConstructorsEvents(Cfg(), classInfo, ms[..i]), ConstructorEntryEvents(Cfg(), classInfo, ms[i]));
          i := i + 1;
        }
        assert ms[..i] == ms;
        AppendAssoc(t0, CodeDecorationEvents(Cfg(), "Access to constructors"), ConstructorsEvents(Cfg(), classInfo, ms));
      }
    }

    /** One constructor of the constructors section: an empty line, its javadoc and its wrapper. */
    method WriteConstructorEntry(writer: JavaWriter, classInfo: ClassInfo, methodInfo: MethodInfo)
      requires methodInfo.inheritanceLevel < |classInfo.listSuperClassNames|
      modifies writer
      ensures writer.trace == old(writer.trace) + ConstructorEntryEvents(Cfg(), classInfo, methodInfo)
    {
      hide JavadocEvents, MethodWrapperEvents;
      ghost var t0 := writer.trace;
      writer.Emit(EmitEmptyLine);
      WriteJavadocForBoundConstructor(writer, classInfo, methodInfo);
      ghost var jd := JavadocEvents(Cfg(), GenerateJavadocForBoundConstructor(javadocGenerator, 
                        classInfo, methodInfo, ParametersTypesCommaSeparated(methodInfo.parameterTypes)));
      AppendAssoc(t0, [EmitEmptyLine], jd);
      CreateMethodWrapper(writer, methodInfo, classInfo.boundClassName, classInfo.listSuperClassNames);
      AppendAssoc(t0, [EmitEmptyLine] + jd,
                  MethodWrapperEvents(Cfg(), methodInfo, classInfo.boundClassName, classInfo.listSuperClassNames));
    }

    /** The fields section of `createClassWrapper` (root) and `createInnerClassWrapper` (inner). */
    method WriteFieldsSection(writer: JavaWriter, classInfo: ClassInfo, forInnerClass: bool)
      requires forInnerClass || FieldLevelsBelow(classInfo.listFieldInfos, |classInfo.listSuperClassNames|)
      modifies writer
      ensures writer.trace == old(writer.trace) + FieldsSection(Cfg(), classInfo, forInnerClass)
    {
      hide FieldAccessorEvents, CodeDecorationEvents;
      var fs := classInfo.listFieldInfos;
      if fs != [] {
        ghost var t0 := writer.trace;
        WriteCodeDecoration(writer, "Direct access to fields");
        ghost var t1 := writer.trace;
        var i := 0;
        while i < |fs|
          invariant 0 <= i <= |fs|
          invariant writer.trace == t1 + FieldsEvents(Cfg(), classInfo, fs[..i], forInnerClass)
        {
          assert fs[..i + 1][..i] == fs[..i];
          WriteFieldAccessors(writer, classInfo, fs[i], forInnerClass);
          AppendAssoc(t1, FieldsEvents(Cfg(), classInfo, fs[..i], forInnerClass),
                      FieldAccessorEvents(Cfg(), classInfo, fs[i], forInnerClass));
          i := i + 1;
        }
        assert fs[..i] == fs;
        AppendAssoc(t0, CodeDecorationEvents(Cfg(), "Direct access to fields"),
                    FieldsEvents(Cfg(), classInfo, fs, forInnerClass));
      }
    }

    /** One field of the fields section: its getter, then its setter unless it is final. */
    method WriteFieldAccessors(writer: JavaWriter, classInfo: ClassInfo, fieldInfo: FieldInfo, forInnerClass: bool)
      requires forInnerClass || fieldInfo.inheritanceLevel < |classInfo.listSuperClassNames|
      modifies writer
      ensures writer.trace == old(writer.trace) + FieldAccessorEvents(Cfg(), classInfo, fieldInfo, forInnerClass)
    {
      hide JavadocEvents, DirectGetterEvents, DirectSetterEvents;
      ghost var t0 := writer.trace;
      WriteJavadocForBoundGetter(writer, fieldInfo, classInfo);
      if forInnerClass {
        CreateDirectGetterForInnerClass(writer, fieldInfo, classInfo.listSuperClassNames);
      } else {
        CreateDirectGetter(writer, fieldInfo, classInfo.listSuperClassNames);
      }
      ghost var getter := JavadocEvents(Cfg(), GenerateJavadocForBoundGetter(javadocGenerator, classInfo, fieldInfo))
                          + DirectGetterEvents(Cfg(), fieldInfo, classInfo.listSuperClassNames, forInnerClass);
      if !fieldInfo.isFinalField {
        ghost var t1 := writer.trace;
        writer.Emit(EmitEmptyLine);
        WriteJavadocForBoundSetter(writer, fieldInfo, classInfo);
        if forInnerClass {
          CreateDirectSetterForInnerClass(writer, fieldInfo, classInfo.listSuperClassNames);
        } else {
          CreateDirectSetter(writer, fieldInfo, classInfo.listSuperClassNames);
        }
        ghost var setter := [EmitEmptyLine]
                            + JavadocEvents(Cfg(), GenerateJavadocForBoundSetter(javadocGenerator, classInfo, fieldInfo))
                            + DirectSetterEvents(Cfg(), fieldInfo, classInfo.listSuperClassNames, forInnerClass);
        AppendAssoc(t0, getter, setter);
      } else {
        assert getter + [] == getter;
      }
    }

    /** The methods section of `createClassWrapper` (root) and `createInnerClassWrapper` (inner). */
    method WriteMethodsSection(writer: JavaWriter, classInfo: ClassInfo, forInnerClass: bool)
      requires forInnerClass || MethodLevelsBelow(classInfo.listMethodInfos, |classInfo.listSuperClassNames|, true)
      modifies writer
      ensures writer.trace == old(writer.trace) + MethodsSection(Cfg(), classInfo, forInnerClass)
    {
      hide MethodEntryEvents, CodeDecorationEvents;
      var ms := classInfo.listMethodInfos;
      if ms != [] {
        ghost var t0 := writer.trace;
        WriteCodeDecoration(writer, "Access to methods");
        ghost var t1 := writer.trace;
        var i := 0;
        while i < |ms|
          invariant 0 <= i <= |ms|
          invariant writer.trace == t1 + MethodsEvents(Cfg(), classInfo, ms[..i], forInnerClass)
        {
          assert ms[..i + 1][..i] == ms[..i];
          WriteMethodEntry(writer, classInfo, ms[i], forInnerClass);
          AppendAssoc(t1, MethodsEvents(Cfg(), classInfo, ms[..i], forInnerClass),
                      MethodEntryEvents(Cfg(), classInfo, ms[i], forInnerClass));
          i := i + 1;
        }
        assert ms[..i] == ms;
        AppendAssoc(t0, CodeDecorationEvents(Cfg(), "Access to methods"),
                    MethodsEvents(Cfg(), classInfo, ms, forInnerClass));
      }
    }

    /** One method of the methods section: initializers are skipped, every other
        method gets an empty line, its javadoc and its wrapper. */
    method WriteMethodEntry(writer: JavaWriter, classInfo: ClassInfo, methodInfo: MethodInfo, forInnerClass: bool)
      requires forInnerClass || IsInitializer(methodInfo) || methodInfo.inheritanceLevel < |classInfo.listSuperClassNames|
      modifies writer
      ensures writer.trace == old(writer.trace) + MethodEntryEvents(Cfg(), classInfo, methodInfo, forInnerClass)
    {
      hide JavadocEvents, MethodWrapperEvents, InnerMethodWrapperEvents;
      if !methodInfo.isInstanceInitializer && !methodInfo.isStaticInitializer {
        ghost var t0 := writer.trace;
        writer.Emit(EmitEmptyLine);
        WriteJavadocForBoundMethod(writer, classInfo, methodInfo);
        ghost var jd := JavadocEvents(Cfg(), GenerateJavadocForBoundMethod(javadocGenerator,
                          classInfo, methodInfo, ParametersTypesCommaSeparated(methodInfo.parameterTypes)));
        AppendAssoc(t0, [EmitEmptyLine], jd);
        if forInnerClass {
          CreateMethodWrapperForInnerClass(writer, methodInfo, classInfo.listSuperClassNames);
          AppendAssoc(t0, [EmitEmptyLine] + jd, InnerMethodWrapperEvents(Cfg(), methodInfo, classInfo.listSuperClassNames));
        } else {
          CreateMethodWrapper(writer, methodInfo, classInfo.boundClassName, classInfo.listSuperClassNames);
          AppendAssoc(t0, [EmitEmptyLine] + jd,
                      MethodWrapperEvents(Cfg(), methodInfo, classInfo.boundClassName, classInfo.listSuperClassNames));
        }
      }
    }

    /** The two inner-class sections of `createClassWrapper` and `createInnerClassWrapper`. */
    method WriteInnerClassSections(writer: JavaWriter, classInfo: ClassInfo)
      modifies writer
      ensures writer.trace == old(writer.trace) + InnerClassSections(Cfg(), classInfo)
      decreases classInfo, 1
    {
      hide InnerAccessorsEvents, InnerWrappersEvents, CodeDecorationEvents;
      if classInfo.listInnerClassInfo != [] {
        ghost var t0 := writer.trace;
        WriteCodeDecoration(writer, "Access to instances of inner classes");
        WriteInnerClassAccessorsLoop(writer, classInfo.listInnerClassInfo);
        ghost var accessors := CodeDecorationEvents(Cfg(), "Access to instances of inner classes")
                               + InnerAccessorsEvents(Cfg(), classInfo.listInnerClassInfo);
        AppendAssoc(t0, CodeDecorationEvents(Cfg(), "Access to instances of inner classes"),
                    InnerAccessorsEvents(Cfg(), classInfo.listInnerClassInfo));
        WriteCodeDecoration(writer, "Access to boundboxes of inner classes");
        AppendAssoc(t0, accessors, CodeDecorationEvents(Cfg(), "Access to boundboxes of inner classes"));
        WriteInnerClassWrappersLoop(writer, classInfo);
        AppendAssoc(t0, accessors + CodeDecorationEvents(Cfg(), "Access to boundboxes of inner classes"),
                    InnerWrappersEvents(Cfg(), classInfo, classInfo.listInnerClassInfo));
      }
    }

    /** The loop of the "Access to instances of inner classes" section. */
    method WriteInnerClassAccessorsLoop(writer: JavaWriter, inners: seq<ClassInfo>)
      modifies writer
      ensures writer.trace == old(writer.trace) + InnerAccessorsEvents(Cfg(), inners)
    {
      hide InnerConstructorAccessorsEvents;
      ghost var t1 := writer.trace;
      var i := 0;
      while i < |inners|
        invariant 0 <= i <= |inners|
        invariant writer.trace == t1 + InnerAccessorsEvents(Cfg(), inners[..i])
      {
        assert inners[..i + 1][..i] == inners[..i];
        writer.Emit(EmitEmptyLine);
        WriteInnerClassAccessors(writer, inners[i]);
        AppendAssoc(t1, InnerAccessorsEvents(Cfg(), inners[..i]), [EmitEmptyLine]);
        AppendAssoc(t1, InnerAccessorsEvents(Cfg(), inners[..i]) + [EmitEmptyLine],
                    InnerConstructorAccessorsEvents(Cfg(), inners[i], inners[i].listConstructorInfos));
        i := i + 1;
      }
      assert inners[..i] == inners;
    }

    /** The loop of the "Access to boundboxes of inner classes" section. */
    method WriteInnerClassWrappersLoop(writer: JavaWriter, classInfo: ClassInfo)
      modifies writer
      ensures writer.trace == old(writer.trace)
                + InnerWrappersEvents(Cfg(), classInfo, classInfo.listInnerClassInfo)
      decreases classInfo, 0
    {
      hide InnerClassWrapperEvents, JavadocEvents;
      var inners := classInfo.listInnerClassInfo;
      ghost var t3 := writer.trace;
      var k := 0;
      while k < |inners|
        invariant 0 <= k <= |inners|
        invariant writer.trace == t3 + InnerWrappersEvents(Cfg(), classInfo, inners[..k])
      {
        assert inners[..k + 1][..k] == inners[..k];
        ghost var t4 := writer.trace;
        writer.Emit(EmitEmptyLine);
        WriteJavadocForBoundInnerClass(writer, inners[k]);
        ghost var jd := JavadocEvents(Cfg(), GenerateJavadocForBoundInnerClass(javadocGenerator, inners[k]));
        AppendAssoc(t4, [EmitEmptyLine], jd);
        CreateInnerClassWrapper(writer, classInfo, inners[k]);
        AppendAssoc(t4, [EmitEmptyLine] + jd, InnerClassWrapperEvents(Cfg(), classInfo, inners[k]));
        AppendAssoc(t3, InnerWrappersEvents(Cfg(), classInfo, inners[..k]),
                    [EmitEmptyLine] + jd + InnerClassWrapperEvents(Cfg(), classInfo, inners[k]));
        k := k + 1;
      }
      assert inners[..k] == inners;
    }

    /** The accessors of one inner class of the "Access to instances of inner classes"
        section: a javadoc and an accessor for each of its constructors. */
    method WriteInnerClassAccessors(writer: JavaWriter, innerClassInfo: ClassInfo)
      modifies writer
      ensures writer.trace == old(writer.trace)
                + InnerConstructorAccessorsEvents(Cfg(), innerClassInfo, innerClassInfo.listConstructorInfos)
    {
      hide InnerClassAccessorEvents, JavadocEvents, ParametersTypesCommaSeparated;
      var ms := innerClassInfo.listConstructorInfos;
      ghost var t1 := writer.trace;
      var j := 0;
      while j < |ms|
        invariant 0 <= j <= |ms|
        invariant writer.trace == t1 + InnerConstructorAccessorsEvents(Cfg(), innerClassInfo, ms[..j])
      {
        assert ms[..j + 1][..j] == ms[..j];
        ghost var t2 := writer.trace;
        WriteJavadocForBoundInnerClassAccessor(writer, innerClassInfo, ms[j]);
        ghost var jd := JavadocEvents(Cfg(), GenerateJavadocForBoundInnerClassAccessor(javadocGenerator,
                          innerClassInfo, ms[j], ParametersTypesCommaSeparated(ms[j].parameterTypes)));
        CreateInnerClassAccessor(writer, innerClassInfo, ms[j]);
        AppendAssoc(t2, jd, InnerClassAccessorEvents(Cfg(), innerClassInfo, ms[j]));
        AppendAssoc(t1, InnerConstructorAccessorsEvents(Cfg(), innerClassInfo, ms[..j]),
                    jd + InnerClassAccessorEvents(Cfg(), innerClassInfo, ms[j]));
        j := j + 1;
      }
      assert ms[..j] == ms;
    }

    /** `createDirectSetter`: the owner is the super-class literal. */
    method CreateDirectSetter(writer: JavaWriter, fieldInfo: FieldInfo, listSuperClassNames: seq<string>)
      requires fieldInfo.inheritanceLevel < |listSuperClassNames|
      modifies writer
      ensures writer.trace == old(writer.trace) + DirectSetterEvents(Cfg(), fieldInfo, listSuperClassNames, false)
    {
      var fieldNameCamelCase := ComputeCamelCaseNameStartUpperCase(namingGenerator, fieldInfo.fieldName);
      var setterName := CreateSetterName(namingGenerator, fieldInfo, listSuperClassNames, fieldNameCamelCase);
      var modifiers: set<Modifier> := {Public};
      if fieldInfo.isStaticField {
        modifiers := modifiers + {Static};
      }
      var nameOfClassThatOwnsField := GetSuperClassName(fieldInfo.inheritanceLevel, listSuperClassNames);
      CreateSetterInvocation(writer, fieldInfo.fieldName, fieldInfo.fieldTypeName, fieldInfo.isStaticField,
                             setterName, modifiers, nameOfClassThatOwnsField);
    }

    /** `createDirectSetterForInnerClass`: the owner is the `boundClass` chain. */
    method CreateDirectSetterForInnerClass(writer: JavaWriter, fieldInfo: FieldInfo, listSuperClassNames: seq<string>)
      modifies writer
      ensures writer.trace == old(writer.trace) + DirectSetterEvents(Cfg(), fieldInfo, listSuperClassNames, true)
    {
      var fieldNameCamelCase := ComputeCamelCaseNameStartUpperCase(namingGenerator, fieldInfo.fieldName);
      var setterName := CreateSetterName(namingGenerator, fieldInfo, listSuperClassNames, fieldNameCamelCase);
      var modifiers: set<Modifier> := {Public};
      if fieldInfo.isStaticField {
        modifiers := modifiers + {Static};
      }
      var nameOfClassThatOwnsField := GetSuperClassChain(fieldInfo.inheritanceLevel);
      CreateSetterInvocation(writer, fieldInfo.fieldName, fieldInfo.fieldTypeName, fieldInfo.isStaticField,
                             setterName, modifiers, nameOfClassThatOwnsField);
    }

    /** `createSetterInvocation`. */
    method CreateSetterInvocation(writer: JavaWriter, fieldName: string, fieldType: string, isStaticField: bool,
                                  setterName: string, modifiers: set<Modifier>, nameOfClassThatOwnsField: string)
      modifies writer
      ensures writer.trace == old(writer.trace)
                + SetterInvocationEvents(fieldName, fieldType, isStaticField, setterName, modifiers, nameOfClassThatOwnsField)
    {
      hide CreateCastReturnTypeString, StringLiteral, GetSuperClassName, SuperClassChain, ParameterTypesAndNames, ParameterLookupTypes, ParameterNames, Join, NonEmptyOnly, ReflectiveCatchClauses, CatchClause;
      ghost var t0 := writer.trace;
      var invocationTarget := if isStaticField then "null" else "boundObject";
      var body := [
        BeginMethod(Some("void"), setterName, modifiers, [fieldType, fieldName], []),
        BeginControlFlow("try"),
        EmitStatement("Field field = " + nameOfClassThatOwnsField + ".getDeclaredField(%s)", [StringLiteral(fieldName)]),
        EmitStatement("field.setAccessible(true)", []),
        EmitStatement("field.set(%s, %s)", [invocationTarget, fieldName]),
        EndControlFlow];
      writer.EmitAll(body);
      AddReflectionExceptionCatchClause(writer, "Exception");
      writer.Emit(EndMethod);
      AppendAssoc(t0, body, CatchClause("Exception"));
      AppendAssoc(t0, body + CatchClause("Exception"), [EndMethod]);
    }

    /** `createDirectGetter`: the owner is the super-class literal. */
    method CreateDirectGetter(writer: JavaWriter, fieldInfo: FieldInfo, listSuperClassNames: seq<string>)
      requires fieldInfo.inheritanceLevel < |listSuperClassNames|
      modifies writer
      ensures writer.trace == old(writer.trace) + DirectGetterEvents(Cfg(), fieldInfo, listSuperClassNames, false)
    {
      var fieldNameCamelCase := ComputeCamelCaseNameStartUpperCase(namingGenerator, fieldInfo.fieldName);
      var getterName := CreateGetterName(namingGenerator, fieldInfo, listSuperClassNames, fieldNameCamelCase);
      var modifiers: set<Modifier> := {Public};
      if fieldInfo.isStaticField {
        modifiers := modifiers + {Static};
      }
      var nameOfClassThatOwnsField := GetSuperClassName(fieldInfo.inheritanceLevel, listSuperClassNames);
      CreateGetterInvocation(writer, fieldInfo.fieldName, fieldInfo.fieldTypeName, fieldInfo.isStaticField,
                             getterName, modifiers, nameOfClassThatOwnsField);
    }

    /** `createDirectGetterForInnerClass`: the owner is the `boundClass` chain. */
    method CreateDirectGetterForInnerClass(writer: JavaWriter, fieldInfo: FieldInfo, listSuperClassNames: seq<string>)
      modifies writer
      ensures writer.trace == old(writer.trace) + DirectGetterEvents(Cfg(), fieldInfo, listSuperClassNames, true)
    {
      var fieldNameCamelCase := ComputeCamelCaseNameStartUpperCase(namingGenerator, fieldInfo.fieldName);
      var getterName := CreateGetterName(namingGenerator, fieldInfo, listSuperClassNames, fieldNameCamelCase);
      var modifiers: set<Modifier> := {Public};
      if fieldInfo.isStaticField {
        modifiers := modifiers + {Static};
      }
      var nameOfClassThatOwnsField := GetSuperClassChain(fieldInfo.inheritanceLevel);
      CreateGetterInvocation(writer, fieldInfo.fieldName, fieldInfo.fieldTypeName, fieldInfo.isStaticField,
                             getterName, modifiers, nameOfClassThatOwnsField);
    }

    /** `createGetterInvocation`. */
    method CreateGetterInvocation(writer: JavaWriter, fieldName: string, fieldType: string, isStaticField: bool,
                                  getterName: string, modifiers: set<Modifier>, nameOfClassThatOwnsField: string)
      modifies writer
      ensures writer.trace == old(writer.trace)
                + GetterInvocationEvents(fieldName, fieldType, isStaticField, getterName, modifiers, nameOfClassThatOwnsField)
    {
      hide CreateCastReturnTypeString, StringLiteral, GetSuperClassName, SuperClassChain, ParameterTypesAndNames, ParameterLookupTypes, ParameterNames, Join, NonEmptyOnly, ReflectiveCatchClauses, CatchClause;
      ghost var t0 := writer.trace;
      var castReturnType := CreateCastReturnTypeString(fieldType);
      var invocationTarget := if isStaticField then "null" else "boundObject";
      var body := [
        BeginMethod(Some(fieldType), getterName, modifiers, [], []),
        BeginControlFlow("try"),
        EmitStatement("Field field = " + nameOfClassThatOwnsField + ".getDeclaredField(%s)", [StringLiteral(fieldName)]),
        EmitStatement("field.setAccessible(true)", []),
        EmitStatement("return %s field.get(%s)", [castReturnType, invocationTarget]),
        EndControlFlow];
      writer.EmitAll(body);
      AddReflectionExceptionCatchClause(writer, "Exception");
      writer.Emit(EndMethod);
      AppendAssoc(t0, body, CatchClause("Exception"));
      AppendAssoc(t0, body + CatchClause("Exception"), [EndMethod]);
    }

    /** `createInnerClassAccessor`. */
    method CreateInnerClassAccessor(writer: JavaWriter, innerClassInfo: ClassInfo, methodInfo: MethodInfo)
      modifies writer
      ensures writer.trace == old(writer.trace) + InnerClassAccessorEvents(Cfg(), innerClassInfo, methodInfo)
    {
      hide InnerClassAccessorBody, ReflectiveCatchClauses;
      ghost var t0 := writer.trace;
      var body := InnerClassAccessorStatements(innerClassInfo, methodInfo);
      writer.EmitAll(body);
      AddReflectiveCatchClauses(writer, methodInfo.isConstructor);
      writer.Emit(EndMethod);
      AppendAssoc(t0, body, ReflectiveCatchClauses(methodInfo.isConstructor));
      AppendAssoc(t0, body + ReflectiveCatchClauses(methodInfo.isConstructor), [EndMethod]);
    }

    /** The part of `createInnerClassAccessor` before its catch clauses: the lookup of the
        inner class by its index among the bound class's declared classes, and the call
        of its constructor, with the enclosing instance first unless the class is static. */
    method InnerClassAccessorStatements(innerClassInfo: ClassInfo, methodInfo: MethodInfo) returns (body: seq<Event>)
      ensures body == InnerClassAccessorBody(Cfg(), innerClassInfo, methodInfo)
    {
      hide CreateCastReturnTypeString, StringLiteral, GetSuperClassName, SuperClassChain, ParameterTypesAndNames, ParameterLookupTypes, ParameterNames, Join, NonEmptyOnly;
      var returnType := methodInfo.returnTypeName;
      var parameterTypeList := methodInfo.parameterTypes;
      var parameters := ParameterTypesAndNames(parameterTypeList);
      var signature := CreateInnerClassAccessorName(namingGenerator, innerClassInfo);
      var modifiers: set<Modifier> := {Public};
      if innerClassInfo.isStaticInnerClass {
        modifiers := modifiers + {Static};
      }
      assert modifiers == StaticIf(innerClassInfo.isStaticInnerClass, {Public});
      var parametersTypesCommaSeparated := ParametersTypesCommaSeparated(parameterTypeList);
      var hiddenParameterClass := if innerClassInfo.isStaticInnerClass then "" else "boundClass";
      var lookupParams := JoinedParams([hiddenParameterClass, parametersTypesCommaSeparated]);
      assert hiddenParameterClass == HiddenParameterClass(innerClassInfo);
      var parametersNamesCommaSeparated := ParametersNamesCommaSeparated(parameterTypeList);
      var hiddenParameter := if innerClassInfo.isStaticInnerClass then "" else "boundObject";
      var invocationParams := JoinedParams([hiddenParameter, parametersNamesCommaSeparated]);
      assert hiddenParameter == HiddenParameter(innerClassInfo);
      body := [
        BeginMethod(Some(returnType), signature, modifiers, parameters, methodInfo.thrownTypeNames),
        BeginControlFlow("try"),
        EmitSingleLineComment(InnerClassLookupComment, [InnerClassLookupReference]),
        EmitStatement("int innerClassIndex = 0;", []),
        BeginControlFlow("for(Class<?> clazz : boundClass.getDeclaredClasses())"),
        BeginControlFlow("if( clazz.getSimpleName().equals(" + StringLiteral(innerClassInfo.boundClassName) + "))"),
        EmitStatement("break", []),
        EndControlFlow,
        EmitStatement("innerClassIndex++;", []),
        EndControlFlow,
        EmitEmptyLine,
        EmitStatement("Constructor<?> method = boundClass.getDeclaredClasses()[%s].getDeclaredConstructor(%s)",
                      ["innerClassIndex", lookupParams]),
        EmitStatement("method.setAccessible(true)", []),
        EmitStatement("return (%s) method.newInstance(%s)", [returnType, invocationParams]),
        EndControlFlow];
    }

    /** `createMethodWrapper`: a constructor or method wrapper of the root accessor. */
    method CreateMethodWrapper(writer: JavaWriter, methodInfo: MethodInfo, targetClassName: string,
                               listSuperClassNames: seq<string>)
      requires methodInfo.inheritanceLevel < |listSuperClassNames|
      modifies writer
      ensures writer.trace == old(writer.trace)
                + MethodWrapperEvents(Cfg(), methodInfo, targetClassName, listSuperClassNames)
    {
      hide WrapperBody, ReflectiveCatchClauses;
      ghost var t0 := writer.trace;
      var body := MethodWrapperStatements(methodInfo, targetClassName, listSuperClassNames);
      writer.EmitAll(body);
      AddReflectiveCatchClauses(writer, methodInfo.isConstructor);
      writer.Emit(EndMethod);
      AppendAssoc(t0, body, ReflectiveCatchClauses(methodInfo.isConstructor));
      AppendAssoc(t0, body + ReflectiveCatchClauses(methodInfo.isConstructor), [EndMethod]);
    }

    /** The part of `createMethodWrapper` before its catch clauses: the signature,
        the reflective lookup and the invocation inside a `try` block. */
    method MethodWrapperStatements(methodInfo: MethodInfo, targetClassName: string, listSuperClassNames: seq<string>)
      returns (body: seq<Event>)
      requires methodInfo.inheritanceLevel < |listSuperClassNames|
      ensures var returnType := WrapperReturnType(methodInfo, targetClassName);
              body == WrapperBody(WrapperHeader(Cfg(), methodInfo, returnType, listSuperClassNames),
                                  MethodLookupEvent(methodInfo, listSuperClassNames),
                                  MethodInvocationEvent(methodInfo, returnType))
    {
      hide WrapperHeader, MethodLookupEvent, MethodInvocationEvent;
      var returnType := methodInfo.returnTypeName;
      if methodInfo.isConstructor {
        returnType := targetClassName;
      } else if methodInfo.isStaticInitializer || methodInfo.isInstanceInitializer {
        returnType := "void";
      }
      var signature := WrapperSignature(methodInfo, returnType, listSuperClassNames);
      var lookup := MethodLookup(methodInfo, listSuperClassNames);
      var invocation := MethodInvocation(methodInfo, returnType);
      body := [signature, BeginControlFlow("try"), lookup, EmitStatement("methodToInvoke.setAccessible(true)", []),
               invocation, EndControlFlow];
    }

    /** The `beginMethod` call shared by both wrapper flavours: public, static for
        static methods and constructors, named by the naming collaborator. */
    method WrapperSignature(methodInfo: MethodInfo, returnType: string, listSuperClassNames: seq<string>)
      returns (signature: Event)
      ensures signature == WrapperHeader(Cfg(), methodInfo, returnType, listSuperClassNames)
    {
      hide ParameterTypesAndNames;
      var parameters := ParameterTypesAndNames(methodInfo.parameterTypes);
      var methodWrapperName := CreateMethodName(namingGenerator, methodInfo, listSuperClassNames);
      var modifiers: set<Modifier> := {Public};
      if methodInfo.isStaticMethod || methodInfo.isConstructor {
        modifiers := modifiers + {Static};
      }
      signature := BeginMethod(Some(returnType), methodWrapperName, modifiers, parameters, methodInfo.thrownTypeNames);
    }

    /** The reflective lookup of the root wrapper: the bound class's declared
        constructor, or the declared method of the class at the method's level. */
    static method MethodLookup(methodInfo: MethodInfo, listSuperClassNames: seq<string>) returns (lookup: Event)
      requires methodInfo.inheritanceLevel < |listSuperClassNames|
      ensures lookup == MethodLookupEvent(methodInfo, listSuperClassNames)
    {
      hide StringLiteral, GetSuperClassName, ParametersTypesCommaSeparated, JoinedParams;
      var parametersTypesCommaSeparated := ParametersTypesCommaSeparated(methodInfo.parameterTypes);
      var superClassChain := GetSuperClassName(methodInfo.inheritanceLevel, listSuperClassNames);
      if methodInfo.isConstructor || methodInfo.isInstanceInitializer {
        lookup := EmitStatement("Constructor<?> methodToInvoke = boundClass.getDeclaredConstructor(%s)",
                                [parametersTypesCommaSeparated]);
      } else {
        var lookupParams := JoinedParams([StringLiteral(methodInfo.methodName), parametersTypesCommaSeparated]);
        lookup := EmitStatement("Method methodToInvoke = %s.getDeclaredMethod(%s)", [superClassChain, lookupParams]);
      }
    }

    /** The reflective invocation of the root wrapper: `newInstance` for a
        constructor, `invoke` on `null` or the bound object otherwise. */
    static method MethodInvocation(methodInfo: MethodInfo, returnType: string) returns (invocation: Event)
      ensures invocation == MethodInvocationEvent(methodInfo, returnType)
    {
      hide CreateCastReturnTypeString, ParametersNamesCommaSeparated, JoinedParams;
      var returnString := "";
      if methodInfo.isConstructor || methodInfo.hasReturnType {
        returnString := "return " + CreateCastReturnTypeString(returnType);
      }
      var invocationTarget := if methodInfo.isStaticMethod then "null" else "boundObject";
      var parametersNamesCommaSeparated := ParametersNamesCommaSeparated(methodInfo.parameterTypes);
      if methodInfo.isConstructor {
        invocation := EmitStatement("%s methodToInvoke.newInstance(%s)", [returnString, parametersNamesCommaSeparated]);
      } else {
        var invocationParams := JoinedParams([invocationTarget, parametersNamesCommaSeparated]);
        invocation := EmitStatement("%s methodToInvoke.invoke(%s)", [returnString, invocationParams]);
      }
    }

    /** `createMethodWrapperForInnerClass`: a method wrapper of an inner-class accessor. */
    method CreateMethodWrapperForInnerClass(writer: JavaWriter, methodInfo: MethodInfo, listSuperClassNames: seq<string>)
      modifies writer
      ensures writer.trace == old(writer.trace) + InnerMethodWrapperEvents(Cfg(), methodInfo, listSuperClassNames)
    {
      hide WrapperBody, ReflectiveCatchClauses;
      ghost var t0 := writer.trace;
      var body := InnerMethodWrapperStatements(methodInfo, listSuperClassNames);
      writer.EmitAll(body);
      AddReflectiveCatchClauses(writer, methodInfo.isConstructor);
      writer.Emit(EndMethod);
      AppendAssoc(t0, body, ReflectiveCatchClauses(methodInfo.isConstructor));
      AppendAssoc(t0, body + ReflectiveCatchClauses(methodInfo.isConstructor), [EndMethod]);
    }

    /** The part of `createMethodWrapperForInnerClass` before its catch clauses. */
    method InnerMethodWrapperStatements(methodInfo: MethodInfo, listSuperClassNames: seq<string>)
      returns (body: seq<Event>)
      ensures var returnType := InnerWrapperReturnType(methodInfo);
              body == WrapperBody(WrapperHeader(Cfg(), methodInfo, returnType, listSuperClassNames),
                                  InnerMethodLookupEvent(methodInfo),
                                  InnerMethodInvocationEvent(methodInfo, returnType))
    {
      hide WrapperHeader, InnerMethodLookupEvent, InnerMethodInvocationEvent;
      var returnType := methodInfo.returnTypeName;
      if methodInfo.isStaticInitializer || methodInfo.isInstanceInitializer {
        returnType := "void";
      }
      var signature := WrapperSignature(methodInfo, returnType, listSuperClassNames);
      var lookup := InnerMethodLookup(methodInfo);
      var invocation := InnerMethodInvocation(methodInfo, returnType);
      body := [signature, BeginControlFlow("try"), lookup, EmitStatement("methodToInvoke.setAccessible(true)", []),
               invocation, EndControlFlow];
    }

    /** The reflective lookup of an inner-class wrapper: always `getDeclaredMethod`
        on the `getSuperclass()` chain of the method's level. */
    static method InnerMethodLookup(methodInfo: MethodInfo) returns (lookup: Event)
      ensures lookup == InnerMethodLookupEvent(methodInfo)
    {
      hide StringLiteral, SuperClassChain, ParametersTypesCommaSeparated;
      var superClassChain := SuperClassChain(methodInfo.inheritanceLevel);
      if methodInfo.parameterTypes == [] {
        lookup := EmitStatement("Method methodToInvoke = %s.getDeclaredMethod(%s)",
                                [superClassChain, StringLiteral(methodInfo.methodName)]);
      } else {
        var parametersTypesCommaSeparated := ParametersTypesCommaSeparated(methodInfo.parameterTypes);
        lookup := EmitStatement("Method methodToInvoke = %s.getDeclaredMethod(%s,%s)",
                                [superClassChain, StringLiteral(methodInfo.methodName), parametersTypesCommaSeparated]);
      }
    }

    /** The reflective invocation of an inner-class wrapper. */
    static method InnerMethodInvocation(methodInfo: MethodInfo, returnType: string) returns (invocation: Event)
      ensures invocation == InnerMethodInvocationEvent(methodInfo, returnType)
    {
      hide CreateCastReturnTypeString, ParametersNamesCommaSeparated;
      var returnString := "";
      if methodInfo.isConstructor || methodInfo.hasReturnType {
        returnString := "return " + CreateCastReturnTypeString(returnType);
      }
      var invocationTarget := if methodInfo.isStaticMethod then "null" else "boundObject";
      if methodInfo.parameterTypes == [] {
        invocation := EmitStatement("%s methodToInvoke.invoke(%s)", [returnString, invocationTarget]);
      } else {
        var parametersNamesCommaSeparated := ParametersNamesCommaSeparated(methodInfo.parameterTypes);
        invocation := EmitStatement("%s methodToInvoke.invoke(%s,%s)",
                                    [returnString, invocationTarget, parametersNamesCommaSeparated]);
      }
    }

    /** The catch clauses that close `createMethodWrapper`, `createMethodWrapperForInnerClass`
        and `createInnerClassAccessor`. */
    method AddReflectiveCatchClauses(writer: JavaWriter, isConstructor: bool)
      modifies writer
      ensures writer.trace == old(writer.trace) + ReflectiveCatchClauses(isConstructor)
    {
      ghost var t0 := writer.trace;
      AddReflectionExceptionCatchClause(writer, "IllegalAccessException");
      AddReflectionExceptionCatchClause(writer, "IllegalArgumentException");
      AppendAssoc(t0, CatchClause("IllegalAccessException"), CatchClause("IllegalArgumentException"));
      ghost var c2 := CatchClause("IllegalAccessException") + CatchClause("IllegalArgumentException");
      AddReflectionExceptionCatchClause(writer, "InvocationTargetException");
      AppendAssoc(t0, c2, CatchClause("InvocationTargetException"));
      ghost var c3 := c2 + CatchClause("InvocationTargetException");
      AddReflectionExceptionCatchClause(writer, "NoSuchMethodException");
      AppendAssoc(t0, c3, CatchClause("NoSuchMethodException"));
      ghost var c4 := c3 + CatchClause("NoSuchMethodException");
      if isConstructor {
        AddReflectionExceptionCatchClause(writer, "InstantiationException");
        AppendAssoc(t0, c4, CatchClause("InstantiationException"));
      } else {
        assert c4 + [] == c4;
      }
    }

    /** `writeCodeDecoration`: each banner line as a comment, then an empty line. */
    method WriteCodeDecoration(writer: JavaWriter, decorationTitle: string)
      modifies writer
      ensures writer.trace == old(writer.trace) + CodeDecorationEvents(Cfg(), decorationTitle)
    {
      var lines := GenerateCodeDecoration(javadocGenerator, decorationTitle);
      ghost var t0 := writer.trace;
      var i := 0;
      while i < |lines|
        invariant 0 <= i <= |lines|
        invariant writer.trace == t0 + CommentLines(lines[..i])
      {
        assert lines[..i + 1][..i] == lines[..i];
        writer.Emit(EmitSingleLineComment(lines[i], []));
        i := i + 1;
      }
      assert lines[..i] == lines;
      writer.Emit(EmitEmptyLine);
    }

    method WriteJavadocForBoundBoxClass(writer: JavaWriter, classInfo: ClassInfo)
      modifies writer
      ensures writer.trace == old(writer.trace)
                + JavadocEvents(Cfg(), GenerateJavadocForBoundBoxClass(javadocGenerator, classInfo))
    {
      if isWritingJavadoc {
        writer.Emit(EmitJavadoc(GenerateJavadocForBoundBoxClass(javadocGenerator, classInfo)));
      }
    }

    method WriteJavadocForBoundBoxConstructor(writer: JavaWriter, classInfo: ClassInfo)
      modifies writer
      ensures writer.trace == old(writer.trace)
                + JavadocEvents(Cfg(), GenerateJavadocForBoundBoxConstructor(javadocGenerator, classInfo))
    {
      if isWritingJavadoc {
        writer.Emit(EmitJavadoc(GenerateJavadocForBoundBoxConstructor(javadocGenerator, classInfo)));
      }
    }

    method WriteJavadocForBoundConstructor(writer: JavaWriter, classInfo: ClassInfo, methodInfo: MethodInfo)
      modifies writer
      ensures writer.trace == old(writer.trace)
                + JavadocEvents(Cfg(), GenerateJavadocForBoundConstructor(javadocGenerator, 
                                         classInfo, methodInfo, ParametersTypesCommaSeparated(methodInfo.parameterTypes)))
    {
      if isWritingJavadoc {
        var parametersTypesCommaSeparated := CreateListOfParametersTypesCommaSeparated(methodInfo.parameterTypes);
        writer.Emit(EmitJavadoc(GenerateJavadocForBoundConstructor(javadocGenerator, 
                                  classInfo, methodInfo, parametersTypesCommaSeparated)));
      }
    }

    method WriteJavadocForBoundSetter(writer: JavaWriter, fieldInfo: FieldInfo, classInfo: ClassInfo)
      modifies writer
      ensures writer.trace == old(writer.trace)
                + JavadocEvents(Cfg(), GenerateJavadocForBoundSetter(javadocGenerator, classInfo, fieldInfo))
    {
      if isWritingJavadoc {
        writer.Emit(EmitJavadoc(GenerateJavadocForBoundSetter(javadocGenerator, classInfo, fieldInfo)));
      }
    }

    method WriteJavadocForBoundGetter(writer: JavaWriter, fieldInfo: FieldInfo, classInfo: ClassInfo)
      modifies writer
      ensures writer.trace == old(writer.trace)
                + JavadocEvents(Cfg(), GenerateJavadocForBoundGetter(javadocGenerator, classInfo, fieldInfo))
    {
      if isWritingJavadoc {
        writer.Emit(EmitJavadoc(GenerateJavadocForBoundGetter(javadocGenerator, classInfo, fieldInfo)));
      }
    }

    method WriteJavadocForBoundMethod(writer: JavaWriter, classInfo: ClassInfo, methodInfo: MethodInfo)
      modifies writer
      ensures writer.trace == old(writer.trace)
                + JavadocEvents(Cfg(), GenerateJavadocForBoundMethod(javadocGenerator, 
                                         classInfo, methodInfo, ParametersTypesCommaSeparated(methodInfo.parameterTypes)))
    {
      if isWritingJavadoc {
        var parametersTypesCommaSeparated := CreateListOfParametersTypesCommaSeparated(methodInfo.parameterTypes);
        writer.Emit(EmitJavadoc(GenerateJavadocForBoundMethod(javadocGenerator, 
                                  classInfo, methodInfo, parametersTypesCommaSeparated)));
      }
    }

    method WriteJavadocForBoundInnerClass(writer: JavaWriter, innerClassInfo: ClassInfo)
      modifies writer
      ensures writer.trace == old(writer.trace)
                + JavadocEvents(Cfg(), GenerateJavadocForBoundInnerClass(javadocGenerator, innerClassInfo))
    {
      if isWritingJavadoc {
        writer.Emit(EmitJavadoc(GenerateJavadocForBoundInnerClass(javadocGenerator, innerClassInfo)));
      }
    }

    method WriteJavadocForBoundInnerClassAccessor(writer: JavaWriter, innerClassInfo: ClassInfo, methodInfo: MethodInfo)
      modifies writer
      ensures writer.trace == old(writer.trace)
                + JavadocEvents(Cfg(), GenerateJavadocForBoundInnerClassAccessor(javadocGenerator, 
                                         innerClassInfo, methodInfo, ParametersTypesCommaSeparated(methodInfo.parameterTypes)))
    {
      if isWritingJavadoc {
        var parametersTypesCommaSeparated := CreateListOfParametersTypesCommaSeparated(methodInfo.parameterTypes);
        writer.Emit(EmitJavadoc(GenerateJavadocForBoundInnerClassAccessor(javadocGenerator, 
                                  innerClassInfo, methodInfo, parametersTypesCommaSeparated)));
      }
    }

    /** `addReflectionExceptionCatchClause`. */
    method AddReflectionExceptionCatchClause(writer: JavaWriter, exceptionSimpleName: string)
      modifies writer
      ensures writer.trace == old(writer.trace) + CatchClause(exceptionSimpleName)
    {
      writer.Emit(BeginControlFlow("catch( " + exceptionSimpleName + " e )"));
      writer.Emit(EmitStatement("throw new BoundBoxException(e)", []));
      writer.Emit(EndControlFlow);
    }
  }
}
