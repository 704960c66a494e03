/** What the generated code looks like, stated over the traces of
    `BoundboxEmission`: the order of the catch clauses, the difference between
    constructor and method wrappers, and how inner classes are reached. */
module BoundboxProperties {
  import opened Wrappers
  import opened JavaStrings
  import opened BoundboxModel
  import opened JavaWriterSink
  import opened Collaborators
  import opened BoundboxHelpers
  import opened BoundboxEmission
  import opened TraceQueries

  // ----- catch clauses -----

  /** The exceptions a reflective method or constructor call catches, in order. */
  function ReflectiveCatchTexts(isConstructor: bool): seq<string> {
    [CatchText("IllegalAccessException"), CatchText("IllegalArgumentException"),
     CatchText("InvocationTargetException"), CatchText("NoSuchMethodException")]
    + (if isConstructor then [CatchText("InstantiationException")] else [])
  }

  lemma CatchClauseFlows(exceptionSimpleName: string)
    ensures Flows(CatchClause(exceptionSimpleName)) == [CatchText(exceptionSimpleName)]
  {
    var c := CatchClause(exceptionSimpleName);
    assert c == [] + [c[0]] + c[1..];
    FlowsAround([], c[0], c[1..]);
  }

  /** The catch clauses of a reflective call come in a fixed order, and
      `InstantiationException` is caught only after a constructor call. */
  lemma {:induction false} ReflectiveCatchOrder(isConstructor: bool)
    ensures Flows(ReflectiveCatchClauses(isConstructor)) == ReflectiveCatchTexts(isConstructor)
  {
    var a := CatchClause("IllegalAccessException");
    var b := CatchClause("IllegalArgumentException");
    var c := CatchClause("InvocationTargetException");
    var d := CatchClause("NoSuchMethodException");
    var e := if isConstructor then CatchClause("InstantiationException") else [];
    CatchClauseFlows("IllegalAccessException");
    CatchClauseFlows("IllegalArgumentException");
    CatchClauseFlows("InvocationTargetException");
    CatchClauseFlows("NoSuchMethodException");
    CatchClauseFlows("InstantiationException");
    FlowsAppend(a, b);
    FlowsAppend(a + b, c);
    FlowsAppend(a + b + c, d);
    FlowsAppend(a + b + c + d, e);
  }

  /** A wrapper, root or inner, opens its `try` block and then its catch clauses,
      and no other control flow. */
  lemma {:induction false} WrapperFlows(header: Event, lookup: Event, invocation: Event, isConstructor: bool)
    requires !header.BeginControlFlow? && !lookup.BeginControlFlow? && !invocation.BeginControlFlow?
    ensures Flows(WrapperBody(header, lookup, invocation) + ReflectiveCatchClauses(isConstructor) + [EndMethod])
            == ["try"] + ReflectiveCatchTexts(isConstructor)
  {
    var body := WrapperBody(header, lookup, invocation);
    assert body == [body[0]] + [body[1]] + body[2..];
    FlowsAround([body[0]], body[1], body[2..]);
    ReflectiveCatchOrder(isConstructor);
    FlowsAppend(body, ReflectiveCatchClauses(isConstructor));
    FlowsAppend(body + ReflectiveCatchClauses(isConstructor), [EndMethod]);
    NoFlows([EndMethod]);
  }

  lemma MethodWrapperCatchOrder(cfg: Config, m: MethodInfo, targetClassName: string, listSuperClassNames: seq<string>)
    requires m.inheritanceLevel < |listSuperClassNames|
    ensures Flows(MethodWrapperEvents(cfg, m, targetClassName, listSuperClassNames))
            == ["try"] + ReflectiveCatchTexts(m.isConstructor)
  {
    var returnType := WrapperReturnType(m, targetClassName);
    WrapperFlows(WrapperHeader(cfg, m, returnType, listSuperClassNames), MethodLookupEvent(m, listSuperClassNames),
                 MethodInvocationEvent(m, returnType), m.isConstructor);
  }

  lemma InnerMethodWrapperCatchOrder(cfg: Config, m: MethodInfo, listSuperClassNames: seq<string>)
    ensures Flows(InnerMethodWrapperEvents(cfg, m, listSuperClassNames))
            == ["try"] + ReflectiveCatchTexts(m.isConstructor)
  {
    var returnType := InnerWrapperReturnType(m);
    WrapperFlows(WrapperHeader(cfg, m, returnType, listSuperClassNames), InnerMethodLookupEvent(m),
                 InnerMethodInvocationEvent(m, returnType), m.isConstructor);
  }

  /** An inner-class accessor opens its `try`, the loop over the declared classes
      and the test on the simple name, then the reflective catch clauses. */
  lemma {:induction false} InnerClassAccessorCatchOrder(cfg: Config, ic: ClassInfo, m: MethodInfo)
    ensures Flows(InnerClassAccessorEvents(cfg, ic, m))
            == ["try", "for(Class<?> clazz : boundClass.getDeclaredClasses())",
                "if( clazz.getSimpleName().equals(" + StringLiteral(ic.boundClassName) + "))"]
               + ReflectiveCatchTexts(m.isConstructor)
  {
    hide StringLiteral, ParameterTypesAndNames, ParametersTypesCommaSeparated, ParametersNamesCommaSeparated,
         JoinedParams, StaticIf, HiddenParameter, HiddenParameterClass, ReflectiveCatchClauses;
    var body := InnerClassAccessorBody(cfg, ic, m);
    assert forall n | 0 <= n < |body| && n != 1 && n != 4 && n != 5 :: !body[n].BeginControlFlow?;
    FlowsAtThree(body, 1, 4, 5);
    ReflectiveCatchOrder(m.isConstructor);
    FlowsAppend(body, ReflectiveCatchClauses(m.isConstructor));
    FlowsAppend(body + ReflectiveCatchClauses(m.isConstructor), [EndMethod]);
    NoFlows([EndMethod]);
  }

  /** Field getters and setters catch `Exception` alone. */
  lemma {:induction false} FieldAccessorsCatchException(cfg: Config, f: FieldInfo, listSuperClassNames: seq<string>,
                                                        forInnerClass: bool)
    requires forInnerClass || f.inheritanceLevel < |listSuperClassNames|
    ensures Flows(DirectGetterEvents(cfg, f, listSuperClassNames, forInnerClass)) == ["try", CatchText("Exception")]
    ensures Flows(DirectSetterEvents(cfg, f, listSuperClassNames, forInnerClass)) == ["try", CatchText("Exception")]
  {
    hide StringLiteral, CreateCastReturnTypeString, InvocationTarget, GetterName, SetterName, MemberOwner, StaticIf;
    var getter := DirectGetterEvents(cfg, f, listSuperClassNames, forInnerClass);
    var setter := DirectSetterEvents(cfg, f, listSuperClassNames, forInnerClass);
    assert forall n | 0 <= n < |getter| && n != 1 && n != 6 :: !getter[n].BeginControlFlow?;
    assert forall n | 0 <= n < |setter| && n != 1 && n != 6 :: !setter[n].BeginControlFlow?;
    FlowsAtTwo(getter, 1, 6);
    FlowsAtTwo(setter, 1, 6);
  }

  /** The static initializer of the root BoundBox catches `ClassNotFoundException`
      and then `IllegalArgumentException`. */
  lemma {:induction false} RootClassLoadingCatchOrder(c: ClassInfo)
    ensures Flows(RootClassLoadingEvents(c))
            == ["try", CatchText("ClassNotFoundException"), CatchText("IllegalArgumentException")]
  {
    var load := [BeginInitializer(true), BeginControlFlow("try"),
                 EmitStatement("boundClass = Class.forName(" + StringLiteral(BoundClassFqn(c)) + ")", []),
                 EndControlFlow];
    assert load == [load[0]] + [load[1]] + load[2..];
    FlowsAround([load[0]], load[1], load[2..]);
    CatchClauseFlows("ClassNotFoundException");
    CatchClauseFlows("IllegalArgumentException");
    assert RootClassLoadingEvents(c) == load + CatchClause("ClassNotFoundException")
           + CatchClause("IllegalArgumentException") + [EndInitializer, EmitEmptyLine];
    FlowsAppend(load, CatchClause("ClassNotFoundException"));
    FlowsAppend(load + CatchClause("ClassNotFoundException"), CatchClause("IllegalArgumentException"));
    FlowsAppend(load + CatchClause("ClassNotFoundException") + CatchClause("IllegalArgumentException"),
                [EndInitializer, EmitEmptyLine]);
    NoFlows([EndInitializer, EmitEmptyLine]);
  }
}

/** Which events can occur where: the members of a BoundBox never open or close
    a type, inner BoundBoxes nest exactly as the inner classes do, and no
    javadoc is written while javadoc is switched off. */
module BoundboxStructure {
  import opened Wrappers
  import opened JavaStrings
  import opened BoundboxModel
  import opened JavaWriterSink
  import opened Collaborators
  import opened BoundboxHelpers
  import opened BoundboxEmission
  import opened TraceQueries

  /** Events of a member section: no type declaration, and no javadoc unless it is on. */
  predicate Plain(cfg: Config, t: seq<Event>) {
    NoTypeEvents(t) && (!cfg.isWritingJavadoc ==> NoJavadoc(t))
  }

  /** The brackets the BoundBox of `c` should have: one pair for `c`, holding the
      pairs of its inner classes in order. */
  function Nest(c: ClassInfo): seq<bool>
    decreases c, 1
  {
    [true] + NestAll(c.listInnerClassInfo) + [false]
  }

  function NestAll(cs: seq<ClassInfo>): seq<bool>
    decreases cs, 0
  {
    if cs == [] then [] else NestAll(cs[..|cs| - 1]) + Nest(cs[|cs| - 1])
  }

  /** The nesting of the inner classes is a balanced bracket sequence. */
  lemma {:induction false} NestBalanced(c: ClassInfo)
    ensures Balanced(Nest(c))
    decreases c, 1
  {
    NestAllBalanced(c.listInnerClassInfo);
    BalancedWrap(NestAll(c.listInnerClassInfo));
  }

  lemma {:induction false} NestAllBalanced(cs: seq<ClassInfo>)
    ensures Balanced(NestAll(cs))
    decreases cs, 0
  {
    if cs == [] {
      assert Depth([]) == 0;
    } else {
      NestAllBalanced(cs[..|cs| - 1]);
      NestBalanced(cs[|cs| - 1]);
      BalancedAppend(NestAll(cs[..|cs| - 1]), Nest(cs[|cs| - 1]));
    }
  }

  lemma BracketsPlainSuffix(a: seq<Event>, b: seq<Event>)
    requires NoTypeEvents(b)
    ensures Brackets(a + b) == Brackets(a)
  {
    BracketsAppend(a, b);
    NoTypeEventsNoBrackets(b);
  }

  // ----- member sections are plain -----

  lemma JavadocPlain(cfg: Config, javadoc: string)
    ensures Plain(cfg, JavadocEvents(cfg, javadoc))
  {
  }

  lemma EmptyLinePlain(cfg: Config)
    ensures Plain(cfg, [EmitEmptyLine])
  {
  }

  lemma {:induction false} CommentLinesPlain(cfg: Config, lines: seq<string>)
    ensures Plain(cfg, CommentLines(lines))
    decreases |lines|
  {
    if lines != [] {
      CommentLinesPlain(cfg, lines[..|lines| - 1]);
    }
  }

  lemma CodeDecorationPlain(cfg: Config, title: string)
    ensures Plain(cfg, CodeDecorationEvents(cfg, title))
  {
    CommentLinesPlain(cfg, GenerateCodeDecoration(cfg.javadocGenerator, title));
  }

  lemma ReflectiveCatchClausesPlain(cfg: Config, isConstructor: bool)
    ensures Plain(cfg, ReflectiveCatchClauses(isConstructor) + [EndMethod])
  {
  }

  lemma PlainAppend(cfg: Config, a: seq<Event>, b: seq<Event>)
    requires Plain(cfg, a) && Plain(cfg, b)
    ensures Plain(cfg, a + b)
  {
  }

  /** Neither a type declaration nor a javadoc. */
  predicate PlainEvent(e: Event) {
    !e.BeginType? && !e.EndType? && !e.EmitJavadoc?
  }

  lemma WrapperPlain(cfg: Config, header: Event, lookup: Event, invocation: Event, isConstructor: bool)
    requires PlainEvent(header) && PlainEvent(lookup) && PlainEvent(invocation)
    ensures Plain(cfg, WrapperBody(header, lookup, invocation) + ReflectiveCatchClauses(isConstructor) + [EndMethod])
  {
    hide ReflectiveCatchClauses;
    ReflectiveCatchClausesPlain(cfg, isConstructor);
  }

  lemma MethodWrapperPlain(cfg: Config, m: MethodInfo, targetClassName: string, listSuperClassNames: seq<string>)
    requires m.inheritanceLevel < |listSuperClassNames|
    ensures Plain(cfg, MethodWrapperEvents(cfg, m, targetClassName, listSuperClassNames))
  {
    hide WrapperBody, ReflectiveCatchClauses, StringLiteral, JoinedParams, ParametersTypesCommaSeparated,
         ParametersNamesCommaSeparated, ParameterTypesAndNames, GetSuperClassName, MethodName, ReturnString;
    var returnType := WrapperReturnType(m, targetClassName);
    WrapperPlain(cfg, WrapperHeader(cfg, m, returnType, listSuperClassNames), MethodLookupEvent(m, listSuperClassNames),
                 MethodInvocationEvent(m, returnType), m.isConstructor);
  }

  lemma InnerMethodWrapperPlain(cfg: Config, m: MethodInfo, listSuperClassNames: seq<string>)
    ensures Plain(cfg, InnerMethodWrapperEvents(cfg, m, listSuperClassNames))
  {
    hide WrapperBody, ReflectiveCatchClauses;
    var returnType := InnerWrapperReturnType(m);
    WrapperPlain(cfg, WrapperHeader(cfg, m, returnType, listSuperClassNames), InnerMethodLookupEvent(m),
                 InnerMethodInvocationEvent(m, returnType), m.isConstructor);
  }

  /** A trace is plain when each of its events is. */
  lemma PlainAt(cfg: Config, t: seq<Event>)
    requires forall n | 0 <= n < |t| :: PlainEvent(t[n])
    ensures Plain(cfg, t)
  {
  }

  lemma FieldAccessorPlain(cfg: Config, c: ClassInfo, f: FieldInfo, forInnerClass: bool)
    requires forInnerClass || f.inheritanceLevel < |c.listSuperClassNames|
    ensures Plain(cfg, FieldAccessorEvents(cfg, c, f, forInnerClass))
  {
    hide StringLiteral, CreateCastReturnTypeString, InvocationTarget, GetterName, SetterName, MemberOwner, StaticIf;
    var lsn := c.listSuperClassNames;
    var j1 := JavadocEvents(cfg, GenerateJavadocForBoundGetter(cfg.javadocGenerator, c, f));
    var g := DirectGetterEvents(cfg, f, lsn, forInnerClass);
    var j2 := JavadocEvents(cfg, GenerateJavadocForBoundSetter(cfg.javadocGenerator, c, f));
    var s := DirectSetterEvents(cfg, f, lsn, forInnerClass);
    assert forall n | 0 <= n < |g| :: PlainEvent(g[n]);
    assert forall n | 0 <= n < |s| :: PlainEvent(s[n]);
    assert FieldAccessorEvents(cfg, c, f, forInnerClass) == j1 + g + (if f.isFinalField then [] else [EmitEmptyLine] + j2 + s);
    hide DirectGetterEvents, DirectSetterEvents, JavadocEvents, FieldAccessorEvents, Plain;
    PlainAt(cfg, g);
    PlainAt(cfg, s);
    JavadocPlain(cfg, GenerateJavadocForBoundGetter(cfg.javadocGenerator, c, f));
    JavadocPlain(cfg, GenerateJavadocForBoundSetter(cfg.javadocGenerator, c, f));
    EmptyLinePlain(cfg);
    PlainAppend(cfg, j1, g);
    PlainAppend(cfg, [EmitEmptyLine], j2);
    PlainAppend(cfg, [EmitEmptyLine] + j2, s);
    PlainViaEmpty(cfg);
    PlainAppend(cfg, j1 + g, if f.isFinalField then [] else [EmitEmptyLine] + j2 + s);
  }

  lemma PlainViaEmpty(cfg: Config)
    ensures Plain(cfg, [])
  {
  }

  lemma InnerClassAccessorPlain(cfg: Config, ic: ClassInfo, m: MethodInfo)
    ensures Plain(cfg, InnerClassAccessorEvents(cfg, ic, m))
  {
    hide StringLiteral, ParameterTypesAndNames, ParametersTypesCommaSeparated, ParametersNamesCommaSeparated,
         JoinedParams, StaticIf, HiddenParameter, HiddenParameterClass, ReflectiveCatchClauses;
    var body := InnerClassAccessorBody(cfg, ic, m);
    assert forall n | 0 <= n < |body| :: PlainEvent(body[n]);
    hide InnerClassAccessorBody, Plain;
    PlainAt(cfg, body);
    ReflectiveCatchClausesPlain(cfg, m.isConstructor);
    PlainAppend(cfg, body, ReflectiveCatchClauses(m.isConstructor) + [EndMethod]);
    assert body + ReflectiveCatchClauses(m.isConstructor) + [EndMethod]
        == body + (ReflectiveCatchClauses(m.isConstructor) + [EndMethod]);
  }

  lemma {:induction false} FieldsPlain(cfg: Config, c: ClassInfo, fs: seq<FieldInfo>, forInnerClass: bool)
    requires forInnerClass || FieldLevelsBelow(fs, |c.listSuperClassNames|)
    ensures Plain(cfg, FieldsEvents(cfg, c, fs, forInnerClass))
    decreases |fs|
  {
    if fs != [] {
      hide FieldAccessorEvents, Plain;
      FieldsPlain(cfg, c, fs[..|fs| - 1], forInnerClass);
      FieldAccessorPlain(cfg, c, fs[|fs| - 1], forInnerClass);
      PlainAppend(cfg, FieldsEvents(cfg, c, fs[..|fs| - 1], forInnerClass),
                  FieldAccessorEvents(cfg, c, fs[|fs| - 1], forInnerClass));
    }
  }

  lemma FieldsSectionPlain(cfg: Config, c: ClassInfo, forInnerClass: bool)
    requires forInnerClass || FieldLevelsBelow(c.listFieldInfos, |c.listSuperClassNames|)
    ensures Plain(cfg, FieldsSection(cfg, c, forInnerClass))
  {
    if c.listFieldInfos != [] {
      hide CodeDecorationEvents, FieldsEvents, Plain;
      CodeDecorationPlain(cfg, "Direct access to fields");
      FieldsPlain(cfg, c, c.listFieldInfos, forInnerClass);
      PlainAppend(cfg, CodeDecorationEvents(cfg, "Direct access to fields"), FieldsEvents(cfg, c, c.listFieldInfos, forInnerClass));
    }
  }

  lemma MethodEntryPlain(cfg: Config, c: ClassInfo, m: MethodInfo, forInnerClass: bool)
    requires forInnerClass || IsInitializer(m) || m.inheritanceLevel < |c.listSuperClassNames|
    ensures Plain(cfg, MethodEntryEvents(cfg, c, m, forInnerClass))
  {
    hide MethodWrapperEvents, InnerMethodWrapperEvents, ParametersTypesCommaSeparated;
    if !IsInitializer(m) {
      if forInnerClass {
        InnerMethodWrapperPlain(cfg, m, c.listSuperClassNames);
      } else {
        MethodWrapperPlain(cfg, m, c.boundClassName, c.listSuperClassNames);
      }
    }
  }

  lemma {:induction false} MethodsPlain(cfg: Config, c: ClassInfo, ms: seq<MethodInfo>, forInnerClass: bool)
    requires forInnerClass || MethodLevelsBelow(ms, |c.listSuperClassNames|, true)
    ensures Plain(cfg, MethodsEvents(cfg, c, ms, forInnerClass))
    decreases |ms|
  {
    if ms != [] {
      hide MethodEntryEvents, Plain;
      MethodsPlain(cfg, c, ms[..|ms| - 1], forInnerClass);
      MethodEntryPlain(cfg, c, ms[|ms| - 1], forInnerClass);
      PlainAppend(cfg, MethodsEvents(cfg, c, ms[..|ms| - 1], forInnerClass),
                  MethodEntryEvents(cfg, c, ms[|ms| - 1], forInnerClass));
    }
  }

  lemma MethodsSectionPlain(cfg: Config, c: ClassInfo, forInnerClass: bool)
    requires forInnerClass || MethodLevelsBelow(c.listMethodInfos, |c.listSuperClassNames|, true)
    ensures Plain(cfg, MethodsSection(cfg, c, forInnerClass))
  {
    if c.listMethodInfos != [] {
      hide CodeDecorationEvents, MethodsEvents, Plain;
      CodeDecorationPlain(cfg, "Access to methods");
      MethodsPlain(cfg, c, c.listMethodInfos, forInnerClass);
      PlainAppend(cfg, CodeDecorationEvents(cfg, "Access to methods"), MethodsEvents(cfg, c, c.listMethodInfos, forInnerClass));
    }
  }

  lemma ConstructorEntryPlain(cfg: Config, c: ClassInfo, m: MethodInfo)
    requires m.inheritanceLevel < |c.listSuperClassNames|
    ensures Plain(cfg, ConstructorEntryEvents(cfg, c, m))
  {
    hide MethodWrapperEvents, ParametersTypesCommaSeparated;
    MethodWrapperPlain(cfg, m, c.boundClassName, c.listSuperClassNames);
  }

  lemma {:induction false} ConstructorsPlain(cfg: Config, c: ClassInfo, ms: seq<MethodInfo>)
    requires MethodLevelsBelow(ms, |c.listSuperClassNames|, false)
    ensures Plain(cfg, ConstructorsEvents(cfg, c, ms))
    decreases |ms|
  {
    if ms != [] {
      hide ConstructorEntryEvents, Plain;
      ConstructorsPlain(cfg, c, ms[..|ms| - 1]);
      ConstructorEntryPlain(cfg, c, ms[|ms| - 1]);
      PlainAppend(cfg, ConstructorsEvents(cfg, c, ms[..|ms| - 1]), ConstructorEntryEvents(cfg, c, ms[|ms| - 1]));
    }
  }

  lemma ConstructorsSectionPlain(cfg: Config, c: ClassInfo)
    requires MethodLevelsBelow(c.listConstructorInfos, |c.listSuperClassNames|, false)
    ensures Plain(cfg, ConstructorsSection(cfg, c))
  {
    if c.listConstructorInfos != [] {
      hide CodeDecorationEvents, ConstructorsEvents, Plain;
      CodeDecorationPlain(cfg, "Access to constructors");
      ConstructorsPlain(cfg, c, c.listConstructorInfos);
      PlainAppend(cfg, CodeDecorationEvents(cfg, "Access to constructors"), ConstructorsEvents(cfg, c, c.listConstructorInfos));
    }
  }

  lemma {:induction false} InnerConstructorAccessorsPlain(cfg: Config, ic: ClassInfo, ms: seq<MethodInfo>)
    ensures Plain(cfg, InnerConstructorAccessorsEvents(cfg, ic, ms))
    decreases |ms|
  {
    if ms != [] {
      var m := ms[|ms| - 1];
      hide InnerClassAccessorEvents, ParametersTypesCommaSeparated, Plain;
      InnerConstructorAccessorsPlain(cfg, ic, ms[..|ms| - 1]);
      InnerClassAccessorPlain(cfg, ic, m);
      JavadocPlain(cfg, GenerateJavadocForBoundInnerClassAccessor(cfg.javadocGenerator,
                          ic, m, ParametersTypesCommaSeparated(m.parameterTypes)));
      PlainAppend(cfg, InnerConstructorAccessorsEvents(cfg, ic, ms[..|ms| - 1]),
                  JavadocEvents(cfg, GenerateJavadocForBoundInnerClassAccessor(cfg.javadocGenerator,
                                       ic, m, ParametersTypesCommaSeparated(m.parameterTypes))));
      PlainAppend(cfg, InnerConstructorAccessorsEvents(cfg, ic, ms[..|ms| - 1])
                       + JavadocEvents(cfg, GenerateJavadocForBoundInnerClassAccessor(cfg.javadocGenerator,
                                              ic, m, ParametersTypesCommaSeparated(m.parameterTypes))),
                  InnerClassAccessorEvents(cfg, ic, m));
    }
  }

  lemma {:induction false} InnerAccessorsPlain(cfg: Config, inners: seq<ClassInfo>)
    ensures Plain(cfg, InnerAccessorsEvents(cfg, inners))
    decreases |inners|
  {
    if inners != [] {
      var ic := inners[|inners| - 1];
      hide InnerConstructorAccessorsEvents, Plain;
      InnerAccessorsPlain(cfg, inners[..|inners| - 1]);
      InnerConstructorAccessorsPlain(cfg, ic, ic.listConstructorInfos);
      EmptyLinePlain(cfg);
      PlainAppend(cfg, InnerAccessorsEvents(cfg, inners[..|inners| - 1]), [EmitEmptyLine]);
      PlainAppend(cfg, InnerAccessorsEvents(cfg, inners[..|inners| - 1]) + [EmitEmptyLine],
                  InnerConstructorAccessorsEvents(cfg, ic, ic.listConstructorInfos));
    }
  }

  lemma BoundBoxConstructorPlain(cfg: Config, c: ClassInfo, boundBoxClassName: string)
    ensures Plain(cfg, BoundBoxConstructorEvents(cfg, c, boundBoxClassName))
  {
  }

  lemma InnerClassLookupPlain(cfg: Config, enclosing: ClassInfo, ic: ClassInfo)
    ensures Plain(cfg, InnerClassLookupEvents(cfg, enclosing, ic))
  {
    hide StringLiteral, BoundBoxName, ThisOrNot;
  }

  lemma RootClassLoadingPlain(cfg: Config, c: ClassInfo)
    ensures Plain(cfg, RootClassLoadingEvents(c))
  {
    hide StringLiteral, BoundClassFqn;
  }

  /** A trace whose type declarations form the brackets `b` and which carries no
      javadoc unless javadoc is on. */
  predicate Shaped(cfg: Config, t: seq<Event>, b: seq<bool>) {
    Brackets(t) == b && (!cfg.isWritingJavadoc ==> NoJavadoc(t))
  }

  lemma ShapedAppend(cfg: Config, t: seq<Event>, b: seq<bool>, u: seq<Event>, d: seq<bool>)
    requires Shaped(cfg, t, b) && Shaped(cfg, u, d)
    ensures Shaped(cfg, t + u, b + d)
  {
    BracketsAppend(t, u);
  }

  lemma PlainShaped(cfg: Config, t: seq<Event>)
    requires Plain(cfg, t)
    ensures Shaped(cfg, t, [])
  {
    NoTypeEventsNoBrackets(t);
  }

  /** A BoundBox header: it opens one type and carries no javadoc. */
  lemma HeaderShaped(cfg: Config, first: Event, rest: seq<Event>)
    requires first.BeginType? && Plain(cfg, rest)
    ensures Shaped(cfg, [first] + rest, [true])
  {
    BracketsPlainSuffix([first], rest);
  }

  lemma EndShaped(cfg: Config)
    ensures Shaped(cfg, [EndType], [false])
  {
    assert Brackets([EndType]) == Brackets([]) + [false];
  }

  /** A BoundBox body: its header opens the type, its member sections are plain,
      its inner sections nest `inner`, and it closes the type. */
  lemma {:induction false} BodyShaped(cfg: Config, h: seq<Event>, p: seq<Event>, s: seq<Event>, inner: seq<bool>)
    requires Shaped(cfg, h, [true]) && Plain(cfg, p) && Shaped(cfg, s, inner)
    ensures Shaped(cfg, h + p + s + [EndType], [true] + inner + [false])
  {
    hide Shaped, Plain;
    PlainShaped(cfg, p);
    ShapedAppend(cfg, h, [true], p, []);
    assert [true] + [] == [true];
    ShapedAppend(cfg, h + p, [true], s, inner);
    EndShaped(cfg);
    ShapedAppend(cfg, h + p + s, [true] + inner, [EndType], [false]);
  }

  lemma {:induction false} PlainFour(cfg: Config, a: seq<Event>, b: seq<Event>, c: seq<Event>, d: seq<Event>)
    requires Plain(cfg, a) && Plain(cfg, b) && Plain(cfg, c) && Plain(cfg, d)
    ensures Plain(cfg, a + b + c + d)
  {
    hide Plain;
    PlainAppend(cfg, a, b);
    PlainAppend(cfg, a + b, c);
    PlainAppend(cfg, a + b + c, d);
  }

  /** One more inner BoundBox, after an empty line and its javadoc. */
  lemma {:induction false} EntryShaped(cfg: Config, init: seq<Event>, b: seq<bool>, javadoc: seq<Event>,
                                       wrapper: seq<Event>, d: seq<bool>)
    requires Shaped(cfg, init, b) && Plain(cfg, javadoc) && Shaped(cfg, wrapper, d)
    ensures Shaped(cfg, init + [EmitEmptyLine] + javadoc + wrapper, b + d)
  {
    hide Shaped, Plain;
    EmptyLinePlain(cfg);
    PlainAppend(cfg, [EmitEmptyLine], javadoc);
    PlainShaped(cfg, [EmitEmptyLine] + javadoc);
    ShapedAppend(cfg, init, b, [EmitEmptyLine] + javadoc, []);
    assert init + [EmitEmptyLine] + javadoc == init + ([EmitEmptyLine] + javadoc);
    assert b + [] == b;
    ShapedAppend(cfg, init + [EmitEmptyLine] + javadoc, b, wrapper, d);
  }

  // ----- BoundBoxes nest as the classes do -----

  /** The nested BoundBox of an inner class is one type declaration holding the
      BoundBoxes of its own inner classes, in order; with javadoc off it carries
      no javadoc. */
  lemma {:induction false} InnerClassWrapperStructure(cfg: Config, enclosing: ClassInfo, ic: ClassInfo)
    ensures Shaped(cfg, InnerClassWrapperEvents(cfg, enclosing, ic), Nest(ic))
    decreases ic, 2
  {
    hide InnerClassLookupEvents, BoundBoxConstructorEvents, FieldsSection, MethodsSection, InnerClassSections,
         BoundBoxName, StaticIf, Shaped, NestAll;
    var name := BoundBoxName(cfg, ic);
    var first := BeginType(name, "class", StaticIf(ic.isStaticInnerClass, {Public, Final}), None);
    var rest := [EmitEmptyLine,
                 EmitField(ObjectClassName, "boundObject", {Private}),
                 EmitField("Class<?>", "boundClass", StaticIf(ic.isStaticInnerClass, {Private})),
                 EmitEmptyLine];
    assert Plain(cfg, rest);
    hide Plain;
    HeaderShaped(cfg, first, rest);
    var lookup := InnerClassLookupEvents(cfg, enclosing, ic);
    var ctor := BoundBoxConstructorEvents(cfg, ic, name);
    var fields := FieldsSection(cfg, ic, true);
    var methods := MethodsSection(cfg, ic, true);
    InnerClassLookupPlain(cfg, enclosing, ic);
    BoundBoxConstructorPlain(cfg, ic, name);
    FieldsSectionPlain(cfg, ic, true);
    MethodsSectionPlain(cfg, ic, true);
    PlainFour(cfg, lookup, ctor, fields, methods);
    InnerClassSectionsStructure(cfg, ic);
    BodyShaped(cfg, [first] + rest, lookup + ctor + fields + methods, InnerClassSections(cfg, ic),
               NestAll(ic.listInnerClassInfo));
    calc {
      InnerClassWrapperEvents(cfg, enclosing, ic);
      [first] + rest + lookup + ctor + fields + methods + InnerClassSections(cfg, ic) + [EndType];
      { assert [first] + rest + lookup + ctor + fields + methods == [first] + rest + (lookup + ctor + fields + methods); }
      [first] + rest + (lookup + ctor + fields + methods) + InnerClassSections(cfg, ic) + [EndType];
    }
  }

  /** The two inner-class sections hold the inner BoundBoxes and nothing else
      that opens a type. */
  lemma {:induction false} InnerClassSectionsStructure(cfg: Config, c: ClassInfo)
    ensures Shaped(cfg, InnerClassSections(cfg, c), NestAll(c.listInnerClassInfo))
    decreases c, 1
  {
    if c.listInnerClassInfo == [] {
      assert Brackets([]) == [];
    } else {
      hide CodeDecorationEvents, InnerAccessorsEvents, InnerWrappersEvents, Plain, Shaped, NestAll;
      var d1 := CodeDecorationEvents(cfg, "Access to instances of inner classes");
      var accessors := InnerAccessorsEvents(cfg, c.listInnerClassInfo);
      var d2 := CodeDecorationEvents(cfg, "Access to boundboxes of inner classes");
      var wrappers := InnerWrappersEvents(cfg, c, c.listInnerClassInfo);
      CodeDecorationPlain(cfg, "Access to instances of inner classes");
      CodeDecorationPlain(cfg, "Access to boundboxes of inner classes");
      InnerAccessorsPlain(cfg, c.listInnerClassInfo);
      PlainAppend(cfg, d1, accessors);
      PlainAppend(cfg, d1 + accessors, d2);
      PlainShaped(cfg, d1 + accessors + d2);
      InnerWrappersStructure(cfg, c, c.listInnerClassInfo);
      ShapedAppend(cfg, d1 + accessors + d2, [], wrappers, NestAll(c.listInnerClassInfo));
      assert [] + NestAll(c.listInnerClassInfo) == NestAll(c.listInnerClassInfo);
    }
  }

  lemma {:induction false} InnerWrappersStructure(cfg: Config, enclosing: ClassInfo, inners: seq<ClassInfo>)
    ensures Shaped(cfg, InnerWrappersEvents(cfg, enclosing, inners), NestAll(inners))
    decreases inners, 0
  {
    if inners == [] {
      assert Brackets([]) == [];
    } else {
      var ic := inners[|inners| - 1];
      hide InnerClassWrapperEvents, JavadocEvents, Plain, Shaped, Nest;
      var init := InnerWrappersEvents(cfg, enclosing, inners[..|inners| - 1]);
      var javadoc := JavadocEvents(cfg, GenerateJavadocForBoundInnerClass(cfg.javadocGenerator, ic));
      var wrapper := InnerClassWrapperEvents(cfg, enclosing, ic);
      InnerWrappersStructure(cfg, enclosing, inners[..|inners| - 1]);
      InnerClassWrapperStructure(cfg, enclosing, ic);
      JavadocPlain(cfg, GenerateJavadocForBoundInnerClass(cfg.javadocGenerator, ic));
      EntryShaped(cfg, init, NestAll(inners[..|inners| - 1]), javadoc, wrapper, Nest(ic));
    }
  }

  /** The root BoundBox is one type declaration holding the BoundBoxes of all
      inner classes, nested as the classes are; with javadoc off it carries no
      javadoc. */
  lemma {:induction false} ClassWrapperStructure(cfg: Config, c: ClassInfo, boundBoxClassName: string)
    requires RootLevelsValid(c)
    ensures Shaped(cfg, ClassWrapperEvents(cfg, c, boundBoxClassName), Nest(c))
  {
    hide RootClassLoadingEvents, BoundBoxConstructorEvents, ConstructorsSection, FieldsSection, MethodsSection,
         InnerClassSections, Shaped, NestAll;
    var first := BeginType(boundBoxClassName, "class", {Public, Final}, None);
    var rest := [EmitEmptyLine,
                 EmitField(ObjectClassName, "boundObject", {Private}),
                 EmitField("Class<?>", "boundClass", {Private, Static}),
                 EmitEmptyLine];
    assert Plain(cfg, rest);
    hide Plain;
    HeaderShaped(cfg, first, rest);
    var loading := RootClassLoadingEvents(c);
    var ctor := BoundBoxConstructorEvents(cfg, c, boundBoxClassName);
    var ctors := ConstructorsSection(cfg, c);
    var fields := FieldsSection(cfg, c, false);
    var methods := MethodsSection(cfg, c, false);
    RootClassLoadingPlain(cfg, c);
    BoundBoxConstructorPlain(cfg, c, boundBoxClassName);
    ConstructorsSectionPlain(cfg, c);
    FieldsSectionPlain(cfg, c, false);
    MethodsSectionPlain(cfg, c, false);
    PlainFour(cfg, loading, ctor, ctors, fields);
    PlainAppend(cfg, loading + ctor + ctors + fields, methods);
    InnerClassSectionsStructure(cfg, c);
    BodyShaped(cfg, [first] + rest, loading + ctor + ctors + fields + methods, InnerClassSections(cfg, c),
               NestAll(c.listInnerClassInfo));
    calc {
      ClassWrapperEvents(cfg, c, boundBoxClassName);
      [first] + rest + loading + ctor + ctors + fields + methods + InnerClassSections(cfg, c) + [EndType];
      { assert [first] + rest + loading + ctor + ctors + fields + methods
            == [first] + rest + (loading + ctor + ctors + fields + methods); }
      [first] + rest + (loading + ctor + ctors + fields + methods) + InnerClassSections(cfg, c) + [EndType];
    }
  }

  /** The generated file declares one type per class of the tree rooted at `c`,
      each closed after the BoundBoxes of its inner classes, so its type
      declarations are balanced; and with javadoc off it carries no javadoc. */
  lemma {:induction false} WriteBoundBoxStructure(cfg: Config, c: ClassInfo)
    requires RootLevelsValid(c)
    ensures Brackets(WriteBoundBoxEvents(cfg, c)) == Nest(c)
    ensures Balanced(Brackets(WriteBoundBoxEvents(cfg, c)))
    ensures !cfg.isWritingJavadoc ==> NoJavadoc(WriteBoundBoxEvents(cfg, c))
  {
    hide ClassWrapperEvents, JavadocEvents, HeaderImports, Nest, Balanced;
    var javadoc := JavadocEvents(cfg, GenerateJavadocForBoundBoxClass(cfg.javadocGenerator, c));
    var header := [EmitPackage(cfg.boundBoxPackageName), EmitEmptyLine,
                   EmitImports(HeaderImports(c, cfg.boundBoxPackageName)), EmitEmptyLine]
                  + javadoc + [EmitAnnotation(SuppressWarningsAll)];
    JavadocPlain(cfg, GenerateJavadocForBoundBoxClass(cfg.javadocGenerator, c));
    assert Plain(cfg, header);
    PlainShaped(cfg, header);
    ClassWrapperStructure(cfg, c, BoundBoxName(cfg, c));
    ShapedAppend(cfg, header, [], ClassWrapperEvents(cfg, c, BoundBoxName(cfg, c)), Nest(c));
    assert [] + Nest(c) == Nest(c);
    NestBalanced(c);
  }
}
