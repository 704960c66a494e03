/** What `BoundboxWriter` emits, as functions from the structural model and the
    writer's configuration to the sequence of sink events. The emitting methods
    of `BoundboxWriterClass` are proved to append exactly these sequences. */
module BoundboxEmission {
  import opened Wrappers
  import opened JavaStrings
  import opened BoundboxModel
  import opened JavaWriterSink
  import opened Collaborators
  import opened BoundboxHelpers

  /** The attributes of a `BoundboxWriter` that influence what it emits. */
  datatype Config = Config(
    isWritingJavadoc: bool,
    namingGenerator: NamingGenerator,
    javadocGenerator: DocumentationGenerator,
    boundBoxPackageName: string)

  const SuppressWarningsAll := "SuppressWarnings(\"all\")"
  const ObjectClassName := "java.lang.Object"

  /** `Field`, `Method`, `Constructor`, `InvocationTargetException` and
      `BoundBoxException`, by their fully qualified names. */
  const ReflectionImports: seq<string> := [
    "java.lang.reflect.Field", "java.lang.reflect.Method", "java.lang.reflect.Constructor",
    "java.lang.reflect.InvocationTargetException", "org.boundbox.BoundBoxException"]

  const InnerClassLookupComment := "We must dynamically retrieve the inner class as of %s"
  const InnerClassLookupReference := "http://stackoverflow.com/q/2883181/693752"

  // ----- small building blocks -----

  function BoundBoxName(cfg: Config, c: ClassInfo): string {
    CreateBoundBoxName(cfg.namingGenerator, c)
  }

  /** The bound class's name, qualified by its package when it has one. */
  function BoundClassFqn(c: ClassInfo): string {
    if c.boundClassPackageName != "" then c.boundClassPackageName + "." + c.boundClassName
    else c.boundClassName
  }

  /** The import list after `writeBoundBox` has rewritten it: the five reflection
      imports, then the bound class when it lives in another, named package. */
  function HeaderImports(c: ClassInfo, boundBoxPackageName: string): (r: seq<string>)
    ensures |r| == 5 || |r| == 6
    ensures r[..5] == ReflectionImports
    ensures |r| == 6 <==> c.boundClassPackageName != boundBoxPackageName && c.boundClassPackageName != ""
    ensures |r| == 6 ==> r[5] == c.boundClassPackageName + "." + c.boundClassName
  {
    if c.boundClassPackageName != boundBoxPackageName && c.boundClassPackageName != "" then
      ReflectionImports + [c.boundClassPackageName + "." + c.boundClassName]
    else ReflectionImports
  }

  function StaticIf(isStatic: bool, modifiers: set<Modifier>): set<Modifier> {
    if isStatic then modifiers + {Static} else modifiers
  }

  /** The receiver of a reflective get, set or invoke. */
  function InvocationTarget(isStatic: bool): string {
    if isStatic then "null" else "boundObject"
  }

  function JavadocEvents(cfg: Config, javadoc: string): seq<Event> {
    if cfg.isWritingJavadoc then [EmitJavadoc(javadoc)] else []
  }

  function CommentLines(lines: seq<string>): seq<Event>
    decreases |lines|
  {
    if lines == [] then []
    else CommentLines(lines[..|lines| - 1]) + [EmitSingleLineComment(lines[|lines| - 1], [])]
  }

  /** `writeCodeDecoration`: the banner lines as comments, then an empty line. */
  function CodeDecorationEvents(cfg: Config, title: string): seq<Event> {
    CommentLines(GenerateCodeDecoration(cfg.javadocGenerator, title)) + [EmitEmptyLine]
  }

  function CatchText(exceptionSimpleName: string): string {
    "catch( " + exceptionSimpleName + " e )"
  }

  /** `addReflectionExceptionCatchClause`: catch and rethrow as `BoundBoxException`. */
  function CatchClause(exceptionSimpleName: string): seq<Event> {
    [BeginControlFlow(CatchText(exceptionSimpleName)),
     EmitStatement("throw new BoundBoxException(e)", []),
     EndControlFlow]
  }

  /** The catch clauses after a reflective method or constructor call. */
  function ReflectiveCatchClauses(isConstructor: bool): seq<Event> {
    CatchClause("IllegalAccessException") + CatchClause("IllegalArgumentException")
    + CatchClause("InvocationTargetException") + CatchClause("NoSuchMethodException")
    + (if isConstructor then CatchClause("InstantiationException") else [])
  }

  /** The public constructor every BoundBox has, storing the wrapped instance. */
  function BoundBoxConstructorEvents(cfg: Config, c: ClassInfo, boundBoxClassName: string): seq<Event> {
    JavadocEvents(cfg, GenerateJavadocForBoundBoxConstructor(cfg.javadocGenerator, c))
    + [BeginMethod(None, boundBoxClassName, {Public}, [ObjectClassName, "boundObject"], []),
       EmitStatement("this.boundObject = boundObject", []),
       EndMethod,
       EmitEmptyLine]
  }

  // ----- fields -----

  /** `createGetterInvocation`. */
  function GetterInvocationEvents(fieldName: string, fieldType: string, isStaticField: bool,
                                  getterName: string, modifiers: set<Modifier>, owner: string): seq<Event> {
    [BeginMethod(Some(fieldType), getterName, modifiers, [], []),
     BeginControlFlow("try"),
     EmitStatement("Field field = " + owner + ".getDeclaredField(%s)", [StringLiteral(fieldName)]),
     EmitStatement("field.setAccessible(true)", []),
     EmitStatement("return %s field.get(%s)", [CreateCastReturnTypeString(fieldType), InvocationTarget(isStaticField)]),
     EndControlFlow]
    + CatchClause("Exception") + [EndMethod]
  }

  /** `createSetterInvocation`. */
  function SetterInvocationEvents(fieldName: string, fieldType: string, isStaticField: bool,
                                  setterName: string, modifiers: set<Modifier>, owner: string): seq<Event> {
    [BeginMethod(Some("void"), setterName, modifiers, [fieldType, fieldName], []),
     BeginControlFlow("try"),
     EmitStatement("Field field = " + owner + ".getDeclaredField(%s)", [StringLiteral(fieldName)]),
     EmitStatement("field.setAccessible(true)", []),
     EmitStatement("field.set(%s, %s)", [InvocationTarget(isStaticField), fieldName]),
     EndControlFlow]
    + CatchClause("Exception") + [EndMethod]
  }

  /** The class reference a member lookup starts from: the super-class literal in
      the root accessor, the `boundClass` chain in an inner-class accessor. */
  function MemberOwner(inheritanceLevel: nat, listSuperClassNames: seq<string>, forInnerClass: bool): string
    requires forInnerClass || inheritanceLevel < |listSuperClassNames|
  {
    if forInnerClass then SuperClassChain(inheritanceLevel)
    else GetSuperClassName(inheritanceLevel, listSuperClassNames)
  }

  function GetterName(cfg: Config, f: FieldInfo, listSuperClassNames: seq<string>): string {
    var camel := ComputeCamelCaseNameStartUpperCase(cfg.namingGenerator, f.fieldName);
    CreateGetterName(cfg.namingGenerator, f, listSuperClassNames, camel)
  }

  function SetterName(cfg: Config, f: FieldInfo, listSuperClassNames: seq<string>): string {
    var camel := ComputeCamelCaseNameStartUpperCase(cfg.namingGenerator, f.fieldName);
    CreateSetterName(cfg.namingGenerator, f, listSuperClassNames, camel)
  }

  /** `createDirectGetter` and `createDirectGetterForInnerClass`. */
  function DirectGetterEvents(cfg: Config, f: FieldInfo, listSuperClassNames: seq<string>, forInnerClass: bool): seq<Event>
    requires forInnerClass || f.inheritanceLevel < |listSuperClassNames|
  {
    GetterInvocationEvents(f.fieldName, f.fieldTypeName, f.isStaticField, GetterName(cfg, f, listSuperClassNames),
                           StaticIf(f.isStaticField, {Public}),
                           MemberOwner(f.inheritanceLevel, listSuperClassNames, forInnerClass))
  }

  /** `createDirectSetter` and `createDirectSetterForInnerClass`. */
  function DirectSetterEvents(cfg: Config, f: FieldInfo, listSuperClassNames: seq<string>, forInnerClass: bool): seq<Event>
    requires forInnerClass || f.inheritanceLevel < |listSuperClassNames|
  {
    SetterInvocationEvents(f.fieldName, f.fieldTypeName, f.isStaticField, SetterName(cfg, f, listSuperClassNames),
                           StaticIf(f.isStaticField, {Public}),
                           MemberOwner(f.inheritanceLevel, listSuperClassNames, forInnerClass))
  }

  /** One field's accessors: a getter, and a setter unless the field is final. */
  function FieldAccessorEvents(cfg: Config, c: ClassInfo, f: FieldInfo, forInnerClass: bool): seq<Event>
    requires forInnerClass || f.inheritanceLevel < |c.listSuperClassNames|
  {
    JavadocEvents(cfg, GenerateJavadocForBoundGetter(cfg.javadocGenerator, c, f))
    + DirectGetterEvents(cfg, f, c.listSuperClassNames, forInnerClass)
    + (if f.isFinalField then []
       else [EmitEmptyLine]
            + JavadocEvents(cfg, GenerateJavadocForBoundSetter(cfg.javadocGenerator, c, f))
            + DirectSetterEvents(cfg, f, c.listSuperClassNames, forInnerClass))
  }

  function FieldsEvents(cfg: Config, c: ClassInfo, fs: seq<FieldInfo>, forInnerClass: bool): seq<Event>
    requires forInnerClass || FieldLevelsBelow(fs, |c.listSuperClassNames|)
    decreases |fs|
  {
    if fs == [] then []
    else FieldsEvents(cfg, c, fs[..|fs| - 1], forInnerClass)
         + FieldAccessorEvents(cfg, c, fs[|fs| - 1], forInnerClass)
  }

  /** The "Direct access to fields" section, absent when there are no fields. */
  function FieldsSection(cfg: Config, c: ClassInfo, forInnerClass: bool): (r: seq<Event>)
    requires forInnerClass || FieldLevelsBelow(c.listFieldInfos, |c.listSuperClassNames|)
    ensures r == [] <==> c.listFieldInfos == []
  {
    if c.listFieldInfos == [] then []
    else CodeDecorationEvents(cfg, "Direct access to fields") + FieldsEvents(cfg, c, c.listFieldInfos, forInnerClass)
  }

  // ----- methods and constructors -----

  function MethodName(cfg: Config, m: MethodInfo, listSuperClassNames: seq<string>): string {
    CreateMethodName(cfg.namingGenerator, m, listSuperClassNames)
  }

  /** The `return (T) ` prefix of an invocation, or nothing for a void method. */
  function ReturnString(m: MethodInfo, returnType: string): string {
    if m.isConstructor || m.hasReturnType then "return " + CreateCastReturnTypeString(returnType) else ""
  }

  /** The return type of a root-accessor wrapper. */
  function WrapperReturnType(m: MethodInfo, targetClassName: string): string {
    if m.isConstructor then targetClassName
    else if IsInitializer(m) then "void"
    else m.returnTypeName
  }

  /** The lookup statement of a root-accessor wrapper: constructors and instance
      initializers are looked up on `boundClass`, other methods on their declaring class. */
  function MethodLookupEvent(m: MethodInfo, listSuperClassNames: seq<string>): Event
    requires m.inheritanceLevel < |listSuperClassNames|
  {
    var typesCsv := ParametersTypesCommaSeparated(m.parameterTypes);
    if m.isConstructor || m.isInstanceInitializer then
      EmitStatement("Constructor<?> methodToInvoke = boundClass.getDeclaredConstructor(%s)", [typesCsv])
    else
      EmitStatement("Method methodToInvoke = %s.getDeclaredMethod(%s)",
                    [GetSuperClassName(m.inheritanceLevel, listSuperClassNames),
                     JoinedParams([StringLiteral(m.methodName), typesCsv])])
  }

  /** The invocation statement of a root-accessor wrapper. */
  function MethodInvocationEvent(m: MethodInfo, returnType: string): Event {
    var namesCsv := ParametersNamesCommaSeparated(m.parameterTypes);
    if m.isConstructor then
      EmitStatement("%s methodToInvoke.newInstance(%s)", [ReturnString(m, returnType), namesCsv])
    else
      EmitStatement("%s methodToInvoke.invoke(%s)",
                    [ReturnString(m, returnType), JoinedParams([InvocationTarget(m.isStaticMethod), namesCsv])])
  }

  /** The signature of a wrapper: static for static methods and for constructors. */
  function WrapperHeader(cfg: Config, m: MethodInfo, returnType: string, listSuperClassNames: seq<string>): Event {
    BeginMethod(Some(returnType), MethodName(cfg, m, listSuperClassNames),
                StaticIf(m.isStaticMethod || m.isConstructor, {Public}),
                ParameterTypesAndNames(m.parameterTypes), m.thrownTypeNames)
  }

  /** The part of a wrapper before its catch clauses. */
  function WrapperBody(header: Event, lookup: Event, invocation: Event): seq<Event> {
    [header, BeginControlFlow("try"), lookup, EmitStatement("methodToInvoke.setAccessible(true)", []),
     invocation, EndControlFlow]
  }

  /** `createMethodWrapper`: a wrapper in the root accessor. */
  function MethodWrapperEvents(cfg: Config, m: MethodInfo, targetClassName: string, listSuperClassNames: seq<string>): seq<Event>
    requires m.inheritanceLevel < |listSuperClassNames|
  {
    var returnType := WrapperReturnType(m, targetClassName);
    WrapperBody(WrapperHeader(cfg, m, returnType, listSuperClassNames),
                MethodLookupEvent(m, listSuperClassNames),
                MethodInvocationEvent(m, returnType))
    + ReflectiveCatchClauses(m.isConstructor) + [EndMethod]
  }

  /** The lookup statement of an inner-class wrapper, through the `boundClass` chain. */
  function InnerMethodLookupEvent(m: MethodInfo): Event {
    var superClassChain := SuperClassChain(m.inheritanceLevel);
    if m.parameterTypes == [] then
      EmitStatement("Method methodToInvoke = %s.getDeclaredMethod(%s)", [superClassChain, StringLiteral(m.methodName)])
    else
      EmitStatement("Method methodToInvoke = %s.getDeclaredMethod(%s,%s)",
                    [superClassChain, StringLiteral(m.methodName), ParametersTypesCommaSeparated(m.parameterTypes)])
  }

  /** The invocation statement of an inner-class wrapper. */
  function InnerMethodInvocationEvent(m: MethodInfo, returnType: string): Event {
    if m.parameterTypes == [] then
      EmitStatement("%s methodToInvoke.invoke(%s)", [ReturnString(m, returnType), InvocationTarget(m.isStaticMethod)])
    else
      EmitStatement("%s methodToInvoke.invoke(%s,%s)",
                    [ReturnString(m, returnType), InvocationTarget(m.isStaticMethod),
                     ParametersNamesCommaSeparated(m.parameterTypes)])
  }

  /** The return type of an inner-class wrapper. */
  function InnerWrapperReturnType(m: MethodInfo): string {
    if IsInitializer(m) then "void" else m.returnTypeName
  }

  /** `createMethodWrapperForInnerClass`: a wrapper in an inner-class accessor. */
  function InnerMethodWrapperEvents(cfg: Config, m: MethodInfo, listSuperClassNames: seq<string>): seq<Event> {
    var returnType := InnerWrapperReturnType(m);
    WrapperBody(WrapperHeader(cfg, m, returnType, listSuperClassNames),
                InnerMethodLookupEvent(m),
                InnerMethodInvocationEvent(m, returnType))
    + ReflectiveCatchClauses(m.isConstructor) + [EndMethod]
  }

  /** One entry of the methods loop: nothing for an initializer, otherwise a wrapper. */
  function MethodEntryEvents(cfg: Config, c: ClassInfo, m: MethodInfo, forInnerClass: bool): seq<Event>
    requires forInnerClass || IsInitializer(m) || m.inheritanceLevel < |c.listSuperClassNames|
  {
    if IsInitializer(m) then []
    else
      [EmitEmptyLine]
      + JavadocEvents(cfg, GenerateJavadocForBoundMethod(cfg.javadocGenerator, 
                             c, m, ParametersTypesCommaSeparated(m.parameterTypes)))
      + (if forInnerClass then InnerMethodWrapperEvents(cfg, m, c.listSuperClassNames)
         else MethodWrapperEvents(cfg, m, c.boundClassName, c.listSuperClassNames))
  }

  function MethodsEvents(cfg: Config, c: ClassInfo, ms: seq<MethodInfo>, forInnerClass: bool): seq<Event>
    requires forInnerClass || MethodLevelsBelow(ms, |c.listSuperClassNames|, true)
    decreases |ms|
  {
    if ms == [] then []
    else MethodsEvents(cfg, c, ms[..|ms| - 1], forInnerClass)
         + MethodEntryEvents(cfg, c, ms[|ms| - 1], forInnerClass)
  }

  /** The "Access to methods" section, absent when the method list is empty. */
  function MethodsSection(cfg: Config, c: ClassInfo, forInnerClass: bool): (r: seq<Event>)
    requires forInnerClass || MethodLevelsBelow(c.listMethodInfos, |c.listSuperClassNames|, true)
    ensures r == [] <==> c.listMethodInfos == []
  {
    if c.listMethodInfos == [] then []
    else CodeDecorationEvents(cfg, "Access to methods") + MethodsEvents(cfg, c, c.listMethodInfos, forInnerClass)
  }

  function ConstructorEntryEvents(cfg: Config, c: ClassInfo, m: MethodInfo): seq<Event>
    requires m.inheritanceLevel < |c.listSuperClassNames|
  {
    [EmitEmptyLine]
    + JavadocEvents(cfg, GenerateJavadocForBoundConstructor(cfg.javadocGenerator, 
                           c, m, ParametersTypesCommaSeparated(m.parameterTypes)))
    + MethodWrapperEvents(cfg, m, c.boundClassName, c.listSuperClassNames)
  }

  function ConstructorsEvents(cfg: Config, c: ClassInfo, ms: seq<MethodInfo>): seq<Event>
    requires MethodLevelsBelow(ms, |c.listSuperClassNames|, false)
    decreases |ms|
  {
    if ms == [] then []
    else ConstructorsEvents(cfg, c, ms[..|ms| - 1]) + ConstructorEntryEvents(cfg, c, ms[|ms| - 1])
  }

  /** The "Access to constructors" section of the root accessor. */
  function ConstructorsSection(cfg: Config, c: ClassInfo): (r: seq<Event>)
    requires MethodLevelsBelow(c.listConstructorInfos, |c.listSuperClassNames|, false)
    ensures r == [] <==> c.listConstructorInfos == []
  {
    if c.listConstructorInfos == [] then []
    else CodeDecorationEvents(cfg, "Access to constructors") + ConstructorsEvents(cfg, c, c.listConstructorInfos)
  }

  // ----- inner classes -----

  function HiddenParameterClass(ic: ClassInfo): string {
    if ic.isStaticInnerClass then "" else "boundClass"
  }

  function HiddenParameter(ic: ClassInfo): string {
    if ic.isStaticInnerClass then "" else "boundObject"
  }

  /** `createInnerClassAccessor`: instantiates an inner class through one of its constructors. */
  function InnerClassAccessorBody(cfg: Config, ic: ClassInfo, m: MethodInfo): seq<Event> {
    var typesCsv := ParametersTypesCommaSeparated(m.parameterTypes);
    var namesCsv := ParametersNamesCommaSeparated(m.parameterTypes);
    [BeginMethod(Some(m.returnTypeName), CreateInnerClassAccessorName(cfg.namingGenerator, ic),
                 StaticIf(ic.isStaticInnerClass, {Public}),
                 ParameterTypesAndNames(m.parameterTypes), m.thrownTypeNames),
     BeginControlFlow("try"),
     EmitSingleLineComment(InnerClassLookupComment, [InnerClassLookupReference]),
     EmitStatement("int innerClassIndex = 0;", []),
     BeginControlFlow("for(Class<?> clazz : boundClass.getDeclaredClasses())"),
     BeginControlFlow("if( clazz.getSimpleName().equals(" + StringLiteral(ic.boundClassName) + "))"),
     EmitStatement("break", []),
     EndControlFlow,
     EmitStatement("innerClassIndex++;", []),
     EndControlFlow,
     EmitEmptyLine,
     EmitStatement("Constructor<?> method = boundClass.getDeclaredClasses()[%s].getDeclaredConstructor(%s)",
                   ["innerClassIndex", JoinedParams([HiddenParameterClass(ic), typesCsv])]),
     EmitStatement("method.setAccessible(true)", []),
     EmitStatement("return (%s) method.newInstance(%s)",
                   [m.returnTypeName, JoinedParams([HiddenParameter(ic), namesCsv])]),
     EndControlFlow]
  }

  function InnerClassAccessorEvents(cfg: Config, ic: ClassInfo, m: MethodInfo): seq<Event> {
    InnerClassAccessorBody(cfg, ic, m) + ReflectiveCatchClauses(m.isConstructor) + [EndMethod]
  }

  function InnerConstructorAccessorsEvents(cfg: Config, ic: ClassInfo, ms: seq<MethodInfo>): seq<Event>
    decreases |ms|
  {
    if ms == [] then []
    else
      var m := ms[|ms| - 1];
      InnerConstructorAccessorsEvents(cfg, ic, ms[..|ms| - 1])
      + JavadocEvents(cfg, GenerateJavadocForBoundInnerClassAccessor(cfg.javadocGenerator, 
                             ic, m, ParametersTypesCommaSeparated(m.parameterTypes)))
      + InnerClassAccessorEvents(cfg, ic, m)
  }

  /** The "Access to instances of inner classes" loop. */
  function InnerAccessorsEvents(cfg: Config, inners: seq<ClassInfo>): seq<Event>
    decreases |inners|
  {
    if inners == [] then []
    else
      var ic := inners[|inners| - 1];
      InnerAccessorsEvents(cfg, inners[..|inners| - 1])
      + [EmitEmptyLine]
      + InnerConstructorAccessorsEvents(cfg, ic, ic.listConstructorInfos)
  }

  /** `.this` qualifies the enclosing BoundBox when it is itself a non-static inner class. */
  function ThisOrNot(enclosing: ClassInfo): string {
    if enclosing.isInnerClass && !enclosing.isStaticInnerClass then ".this" else ""
  }

  /** The initializer that finds an inner class among the enclosing class's declared classes. */
  function InnerClassLookupEvents(cfg: Config, enclosing: ClassInfo, ic: ClassInfo): seq<Event> {
    [BeginInitializer(ic.isStaticInnerClass),
     EmitSingleLineComment(InnerClassLookupComment, [InnerClassLookupReference]),
     BeginControlFlow("for(Class<?> clazz : " + BoundBoxName(cfg, enclosing) + ThisOrNot(enclosing)
                      + ".boundClass.getDeclaredClasses())"),
     BeginControlFlow("if( clazz.getSimpleName().equals(" + StringLiteral(ic.boundClassName) + "))"),
     EmitStatement("boundClass = clazz", []),
     EndControlFlow,
     EndControlFlow,
     EndInitializer,
     EmitEmptyLine]
  }

  /** `createInnerClassWrapper`: the nested BoundBox of one inner class. */
  function InnerClassWrapperEvents(cfg: Config, enclosing: ClassInfo, ic: ClassInfo): seq<Event>
    decreases ic, 2
  {
    var boundBoxClassName := BoundBoxName(cfg, ic);
    [BeginType(boundBoxClassName, "class", StaticIf(ic.isStaticInnerClass, {Public, Final}), None),
     EmitEmptyLine,
     EmitField(ObjectClassName, "boundObject", {Private}),
     EmitField("Class<?>", "boundClass", StaticIf(ic.isStaticInnerClass, {Private})),
     EmitEmptyLine]
    + InnerClassLookupEvents(cfg, enclosing, ic)
    + BoundBoxConstructorEvents(cfg, ic, boundBoxClassName)
    + FieldsSection(cfg, ic, true)
    + MethodsSection(cfg, ic, true)
    + InnerClassSections(cfg, ic)
    + [EndType]
  }

  /** The two inner-class sections of a BoundBox, absent when it has no inner classes. */
  function InnerClassSections(cfg: Config, c: ClassInfo): (r: seq<Event>)
    decreases c, 1
  {
    if c.listInnerClassInfo == [] then []
    else
      CodeDecorationEvents(cfg, "Access to instances of inner classes")
      + InnerAccessorsEvents(cfg, c.listInnerClassInfo)
      + CodeDecorationEvents(cfg, "Access to boundboxes of inner classes")
      + InnerWrappersEvents(cfg, c, c.listInnerClassInfo)
  }

  /** The "Access to boundboxes of inner classes" loop. */
  function InnerWrappersEvents(cfg: Config, enclosing: ClassInfo, inners: seq<ClassInfo>): seq<Event>
    decreases inners, 0
  {
    if inners == [] then []
    else
      var ic := inners[|inners| - 1];
      InnerWrappersEvents(cfg, enclosing, inners[..|inners| - 1])
      + [EmitEmptyLine]
      + JavadocEvents(cfg, GenerateJavadocForBoundInnerClass(cfg.javadocGenerator, ic))
      + InnerClassWrapperEvents(cfg, enclosing, ic)
  }

  // ----- the root accessor -----

  /** The static initializer that loads the bound class by name. */
  function RootClassLoadingEvents(c: ClassInfo): seq<Event> {
    [BeginInitializer(true),
     BeginControlFlow("try"),
     EmitStatement("boundClass = Class.forName(" + StringLiteral(BoundClassFqn(c)) + ")", []),
     EndControlFlow]
    + CatchClause("ClassNotFoundException") + CatchClause("IllegalArgumentException")
    + [EndInitializer, EmitEmptyLine]
  }

  /** `createClassWrapper`: the root BoundBox. */
  function ClassWrapperEvents(cfg: Config, c: ClassInfo, boundBoxClassName: string): seq<Event>
    requires RootLevelsValid(c)
  {
    [BeginType(boundBoxClassName, "class", {Public, Final}, None),
     EmitEmptyLine,
     EmitField(ObjectClassName, "boundObject", {Private}),
     EmitField("Class<?>", "boundClass", {Private, Static}),
     EmitEmptyLine]
    + RootClassLoadingEvents(c)
    + BoundBoxConstructorEvents(cfg, c, boundBoxClassName)
    + ConstructorsSection(cfg, c)
    + FieldsSection(cfg, c, false)
    + MethodsSection(cfg, c, false)
    + InnerClassSections(cfg, c)
    + [EndType]
  }

  /** `writeBoundBox`: package, imports, class javadoc, annotation, then the root BoundBox. */
  function WriteBoundBoxEvents(cfg: Config, c: ClassInfo): seq<Event>
    requires RootLevelsValid(c)
  {
    [EmitPackage(cfg.boundBoxPackageName),
     EmitEmptyLine,
     EmitImports(HeaderImports(c, cfg.boundBoxPackageName)),
     EmitEmptyLine]
    + JavadocEvents(cfg, GenerateJavadocForBoundBoxClass(cfg.javadocGenerator, c))
    + [EmitAnnotation(SuppressWarningsAll)]
    + ClassWrapperEvents(cfg, c, BoundBoxName(cfg, c))
  }
}
