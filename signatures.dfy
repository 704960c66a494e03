/** The methods a BoundBox declares, read off the trace with `BeganMethods`:
    which accessors and wrappers exist, in which order, and with which
    signatures; and how the generated lookups agree with the declarations they
    reach. */
module BoundboxSignatures {
  import opened Wrappers
  import opened JavaStrings
  import opened BoundboxModel
  import opened JavaWriterSink
  import opened Collaborators
  import opened BoundboxHelpers
  import opened BoundboxEmission
  import opened TraceQueries

  // ----- field accessors -----

  /** The getter of a field: returns the field's type, takes nothing, and is
      static with the field. */
  function GetterSignature(cfg: Config, f: FieldInfo, listSuperClassNames: seq<string>): Event {
    BeginMethod(Some(f.fieldTypeName), GetterName(cfg, f, listSuperClassNames), StaticIf(f.isStaticField, {Public}), [], [])
  }

  /** The setter of a field: returns nothing, takes one value of the field's type
      under the field's name, and is static with the field. */
  function SetterSignature(cfg: Config, f: FieldInfo, listSuperClassNames: seq<string>): Event {
    BeginMethod(Some("void"), SetterName(cfg, f, listSuperClassNames), StaticIf(f.isStaticField, {Public}),
                [f.fieldTypeName, f.fieldName], [])
  }

  /** The accessors a BoundBox should offer for `fs`: for each field in order its
      getter, then its setter unless the field is final. */
  function FieldSignatures(cfg: Config, fs: seq<FieldInfo>, listSuperClassNames: seq<string>): seq<Event>
    decreases |fs|
  {
    if fs == [] then []
    else
      var f := fs[|fs| - 1];
      FieldSignatures(cfg, fs[..|fs| - 1], listSuperClassNames)
      + [GetterSignature(cfg, f, listSuperClassNames)]
      + (if f.isFinalField then [] else [SetterSignature(cfg, f, listSuperClassNames)])
  }

  lemma JavadocBeginsNothing(cfg: Config, javadoc: string)
    ensures BeganMethods(JavadocEvents(cfg, javadoc)) == []
  {
    NoBeganMethods(JavadocEvents(cfg, javadoc));
  }

  lemma {:induction false} CommentLinesBeginNothing(lines: seq<string>)
    ensures BeganMethods(CommentLines(lines)) == []
    decreases |lines|
  {
    if lines != [] {
      CommentLinesBeginNothing(lines[..|lines| - 1]);
      BeganMethodsAppend(CommentLines(lines[..|lines| - 1]), [EmitSingleLineComment(lines[|lines| - 1], [])]);
    }
  }

  lemma CodeDecorationBeginsNothing(cfg: Config, title: string)
    ensures BeganMethods(CodeDecorationEvents(cfg, title)) == []
  {
    hide CommentLines;
    CommentLinesBeginNothing(GenerateCodeDecoration(cfg.javadocGenerator, title));
    BeganMethodsAppend(CommentLines(GenerateCodeDecoration(cfg.javadocGenerator, title)), [EmitEmptyLine]);
  }

  lemma {:induction false} GetterBegins(cfg: Config, f: FieldInfo, listSuperClassNames: seq<string>, forInnerClass: bool)
    requires forInnerClass || f.inheritanceLevel < |listSuperClassNames|
    ensures BeganMethods(DirectGetterEvents(cfg, f, listSuperClassNames, forInnerClass))
         == [GetterSignature(cfg, f, listSuperClassNames)]
  {
    hide StringLiteral, CreateCastReturnTypeString, MemberOwner, GetterName;
    var t := DirectGetterEvents(cfg, f, listSuperClassNames, forInnerClass);
    assert t == [t[0]] + t[1..];
    BeganMethodsFirst(t[0], t[1..]);
  }

  lemma {:induction false} SetterBegins(cfg: Config, f: FieldInfo, listSuperClassNames: seq<string>, forInnerClass: bool)
    requires forInnerClass || f.inheritanceLevel < |listSuperClassNames|
    ensures BeganMethods(DirectSetterEvents(cfg, f, listSuperClassNames, forInnerClass))
         == [SetterSignature(cfg, f, listSuperClassNames)]
  {
    hide StringLiteral, MemberOwner, SetterName;
    var t := DirectSetterEvents(cfg, f, listSuperClassNames, forInnerClass);
    assert t == [t[0]] + t[1..];
    BeganMethodsFirst(t[0], t[1..]);
  }

  /** One field gets its getter, and its setter exactly when it is not final. */
  lemma {:induction false} FieldAccessorBegins(cfg: Config, c: ClassInfo, f: FieldInfo, forInnerClass: bool)
    requires forInnerClass || f.inheritanceLevel < |c.listSuperClassNames|
    ensures BeganMethods(FieldAccessorEvents(cfg, c, f, forInnerClass))
         == [GetterSignature(cfg, f, c.listSuperClassNames)]
          + (if f.isFinalField then [] else [SetterSignature(cfg, f, c.listSuperClassNames)])
  {
    var lsn := c.listSuperClassNames;
    var j1 := JavadocEvents(cfg, GenerateJavadocForBoundGetter(cfg.javadocGenerator, c, f));
    var g := DirectGetterEvents(cfg, f, lsn, forInnerClass);
    var j2 := JavadocEvents(cfg, GenerateJavadocForBoundSetter(cfg.javadocGenerator, c, f));
    var s := DirectSetterEvents(cfg, f, lsn, forInnerClass);
    assert FieldAccessorEvents(cfg, c, f, forInnerClass) == j1 + g + (if f.isFinalField then [] else [EmitEmptyLine] + j2 + s);
    hide DirectGetterEvents, DirectSetterEvents, JavadocEvents, GetterSignature, SetterSignature, FieldAccessorEvents;
    JavadocBeginsNothing(cfg, GenerateJavadocForBoundGetter(cfg.javadocGenerator, c, f));
    JavadocBeginsNothing(cfg, GenerateJavadocForBoundSetter(cfg.javadocGenerator, c, f));
    GetterBegins(cfg, f, lsn, forInnerClass);
    SetterBegins(cfg, f, lsn, forInnerClass);
    AccessorsBegin(j1, g, j2, s, f.isFinalField);
  }

  /** A getter, and a setter unless the field is final, each after its javadoc. */
  lemma {:induction false} AccessorsBegin(j1: seq<Event>, g: seq<Event>, j2: seq<Event>, s: seq<Event>, isFinal: bool)
    requires BeganMethods(j1) == [] && BeganMethods(j2) == [] && |BeganMethods(g)| == 1 && |BeganMethods(s)| == 1
    ensures BeganMethods(j1 + g + (if isFinal then [] else [EmitEmptyLine] + j2 + s))
         == BeganMethods(g) + (if isFinal then [] else BeganMethods(s))
  {
    BeganMethodsAppend(j1, g);
    if isFinal {
      assert j1 + g + [] == j1 + g;
    } else {
      NoBeganMethods([EmitEmptyLine]);
      BeganMethodsAppend([EmitEmptyLine], j2);
      BeganMethodsAppend([EmitEmptyLine] + j2, s);
      BeganMethodsAppend(j1 + g, [EmitEmptyLine] + j2 + s);
    }
  }

  /** The field section offers exactly the accessors `FieldSignatures` lists. */
  lemma {:induction false} FieldsBegin(cfg: Config, c: ClassInfo, fs: seq<FieldInfo>, forInnerClass: bool)
    requires forInnerClass || FieldLevelsBelow(fs, |c.listSuperClassNames|)
    ensures BeganMethods(FieldsEvents(cfg, c, fs, forInnerClass)) == FieldSignatures(cfg, fs, c.listSuperClassNames)
    decreases |fs|
  {
    if fs != [] {
      var f := fs[|fs| - 1];
      var init := fs[..|fs| - 1];
      var lsn := c.listSuperClassNames;
      assert forInnerClass || f.inheritanceLevel < |lsn|;
      assert forInnerClass || FieldLevelsBelow(init, |lsn|);
      var t := FieldsEvents(cfg, c, init, forInnerClass);
      var e := FieldAccessorEvents(cfg, c, f, forInnerClass);
      assert FieldsEvents(cfg, c, fs, forInnerClass) == t + e;
      assert FieldSignatures(cfg, fs, lsn) == FieldSignatures(cfg, init, lsn) + ([GetterSignature(cfg, f, lsn)]
               + (if f.isFinalField then [] else [SetterSignature(cfg, f, lsn)]));
      hide FieldAccessorEvents, GetterSignature, SetterSignature, FieldsEvents, FieldSignatures, BeganMethods,
           FieldLevelsBelow;
      FieldsBegin(cfg, c, init, forInnerClass);
      FieldAccessorBegins(cfg, c, f, forInnerClass);
      BeganMethodsAppend(t, e);
    }
  }

  lemma FieldsSectionBegins(cfg: Config, c: ClassInfo, forInnerClass: bool)
    requires forInnerClass || FieldLevelsBelow(c.listFieldInfos, |c.listSuperClassNames|)
    ensures BeganMethods(FieldsSection(cfg, c, forInnerClass)) == FieldSignatures(cfg, c.listFieldInfos, c.listSuperClassNames)
  {
    if c.listFieldInfos != [] {
      hide FieldsEvents, CommentLines;
      var d := CodeDecorationEvents(cfg, "Direct access to fields");
      CodeDecorationBeginsNothing(cfg, "Direct access to fields");
      FieldsBegin(cfg, c, c.listFieldInfos, forInnerClass);
      BeganMethodsAppend(d, FieldsEvents(cfg, c, c.listFieldInfos, forInnerClass));
    }
  }

  // ----- method and constructor wrappers -----

  /** The methods that get a wrapper: all but the initializers, in order. */
  function Wrapped(ms: seq<MethodInfo>): seq<MethodInfo>
    decreases |ms|
  {
    if ms == [] then []
    else Wrapped(ms[..|ms| - 1]) + (if IsInitializer(ms[|ms| - 1]) then [] else [ms[|ms| - 1]])
  }

  lemma {:induction false} WrappedMembers(ms: seq<MethodInfo>, m: MethodInfo)
    ensures m in Wrapped(ms) <==> m in ms && !IsInitializer(m)
    decreases |ms|
  {
    if ms != [] {
      WrappedMembers(ms[..|ms| - 1], m);
      assert ms == ms[..|ms| - 1] + [ms[|ms| - 1]];
    }
  }

  /** The signature of the wrapper for `m`: in the root accessor a constructor's
      wrapper returns the bound class, in both an initializer's returns `void`. */
  function WrapperSignature(cfg: Config, c: ClassInfo, m: MethodInfo, forInnerClass: bool): Event {
    WrapperHeader(cfg, m, if forInnerClass then InnerWrapperReturnType(m) else WrapperReturnType(m, c.boundClassName),
                  c.listSuperClassNames)
  }

  lemma {:induction false} WrapperBegins(cfg: Config, header: Event, lookup: Event, invocation: Event, isConstructor: bool)
    requires header.BeginMethod? && !lookup.BeginMethod? && !invocation.BeginMethod?
    ensures BeganMethods(WrapperBody(header, lookup, invocation) + ReflectiveCatchClauses(isConstructor) + [EndMethod])
         == [header]
  {
    var body := WrapperBody(header, lookup, invocation);
    var tail := ReflectiveCatchClauses(isConstructor);
    assert forall x | x in tail :: !x.BeginMethod?;
    hide ReflectiveCatchClauses;
    assert body + tail + [EndMethod] == [header] + (body[1..] + tail + [EndMethod]);
    BeganMethodsFirst(header, body[1..] + tail + [EndMethod]);
  }

  lemma RootWrapperBegins(cfg: Config, m: MethodInfo, targetClassName: string, listSuperClassNames: seq<string>)
    requires m.inheritanceLevel < |listSuperClassNames|
    ensures BeganMethods(MethodWrapperEvents(cfg, m, targetClassName, listSuperClassNames))
         == [WrapperHeader(cfg, m, WrapperReturnType(m, targetClassName), listSuperClassNames)]
  {
    hide WrapperBody, ReflectiveCatchClauses;
    var rt := WrapperReturnType(m, targetClassName);
    WrapperBegins(cfg, WrapperHeader(cfg, m, rt, listSuperClassNames), MethodLookupEvent(m, listSuperClassNames),
                  MethodInvocationEvent(m, rt), m.isConstructor);
  }

  lemma InnerWrapperBegins(cfg: Config, m: MethodInfo, listSuperClassNames: seq<string>)
    ensures BeganMethods(InnerMethodWrapperEvents(cfg, m, listSuperClassNames))
         == [WrapperHeader(cfg, m, InnerWrapperReturnType(m), listSuperClassNames)]
  {
    hide WrapperBody, ReflectiveCatchClauses;
    var rt := InnerWrapperReturnType(m);
    WrapperBegins(cfg, WrapperHeader(cfg, m, rt, listSuperClassNames), InnerMethodLookupEvent(m),
                  InnerMethodInvocationEvent(m, rt), m.isConstructor);
  }

  /** An entry of the methods loop begins nothing for an initializer and its
      wrapper otherwise. */
  lemma MethodEntryBegins(cfg: Config, c: ClassInfo, m: MethodInfo, forInnerClass: bool)
    requires forInnerClass || IsInitializer(m) || m.inheritanceLevel < |c.listSuperClassNames|
    ensures BeganMethods(MethodEntryEvents(cfg, c, m, forInnerClass))
         == if IsInitializer(m) then [] else [WrapperSignature(cfg, c, m, forInnerClass)]
  {
    if !IsInitializer(m) {
      hide MethodWrapperEvents, InnerMethodWrapperEvents, JavadocEvents, WrapperHeader;
      var javadoc := JavadocEvents(cfg, GenerateJavadocForBoundMethod(cfg.javadocGenerator,
                                          c, m, ParametersTypesCommaSeparated(m.parameterTypes)));
      var lsn := c.listSuperClassNames;
      var w := if forInnerClass then InnerMethodWrapperEvents(cfg, m, lsn)
               else MethodWrapperEvents(cfg, m, c.boundClassName, lsn);
      if forInnerClass {
        InnerWrapperBegins(cfg, m, lsn);
      } else {
        RootWrapperBegins(cfg, m, c.boundClassName, lsn);
      }
      JavadocBeginsNothing(cfg, GenerateJavadocForBoundMethod(cfg.javadocGenerator,
                                    c, m, ParametersTypesCommaSeparated(m.parameterTypes)));
      NoBeganMethods([EmitEmptyLine]);
      BeganMethodsAppend([EmitEmptyLine], javadoc);
      BeganMethodsAppend([EmitEmptyLine] + javadoc, w);
    }
  }

  /** The methods section declares one wrapper per method that is not an
      initializer, in the order of the method list, and nothing else. */
  lemma {:induction false} MethodsBegin(cfg: Config, c: ClassInfo, ms: seq<MethodInfo>, forInnerClass: bool)
    requires forInnerClass || MethodLevelsBelow(ms, |c.listSuperClassNames|, true)
    ensures |BeganMethods(MethodsEvents(cfg, c, ms, forInnerClass))| == |Wrapped(ms)|
    ensures forall i :: 0 <= i < |Wrapped(ms)| ==>
              BeganMethods(MethodsEvents(cfg, c, ms, forInnerClass))[i] == WrapperSignature(cfg, c, Wrapped(ms)[i], forInnerClass)
    decreases |ms|
  {
    if ms != [] {
      var m := ms[|ms| - 1];
      var init := ms[..|ms| - 1];
      assert forInnerClass || IsInitializer(m) || m.inheritanceLevel < |c.listSuperClassNames|;
      assert forInnerClass || MethodLevelsBelow(init, |c.listSuperClassNames|, true);
      var t := MethodsEvents(cfg, c, init, forInnerClass);
      var e := MethodEntryEvents(cfg, c, m, forInnerClass);
      assert MethodsEvents(cfg, c, ms, forInnerClass) == t + e;
      assert Wrapped(ms) == Wrapped(init) + (if IsInitializer(m) then [] else [m]);
      hide MethodEntryEvents, WrapperSignature, MethodsEvents, BeganMethods, MethodLevelsBelow, Wrapped;
      MethodsBegin(cfg, c, init, forInnerClass);
      MethodEntryBegins(cfg, c, m, forInnerClass);
      BeganMethodsAppend(t, e);
      if IsInitializer(m) {
        assert BeganMethods(t) + [] == BeganMethods(t);
        assert Wrapped(init) + [] == Wrapped(init);
      } else {
        SignaturesSnoc(cfg, c, BeganMethods(t), Wrapped(init), m, forInnerClass);
      }
    }
  }

  lemma ConstructorEntryBegins(cfg: Config, c: ClassInfo, m: MethodInfo)
    requires m.inheritanceLevel < |c.listSuperClassNames|
    ensures BeganMethods(ConstructorEntryEvents(cfg, c, m)) == [WrapperSignature(cfg, c, m, false)]
  {
    hide MethodWrapperEvents, JavadocEvents, WrapperHeader;
    var javadoc := JavadocEvents(cfg, GenerateJavadocForBoundConstructor(cfg.javadocGenerator,
                                        c, m, ParametersTypesCommaSeparated(m.parameterTypes)));
    var lsn := c.listSuperClassNames;
    RootWrapperBegins(cfg, m, c.boundClassName, lsn);
    JavadocBeginsNothing(cfg, GenerateJavadocForBoundConstructor(cfg.javadocGenerator,
                                  c, m, ParametersTypesCommaSeparated(m.parameterTypes)));
    NoBeganMethods([EmitEmptyLine]);
    BeganMethodsAppend([EmitEmptyLine], javadoc);
    BeganMethodsAppend([EmitEmptyLine] + javadoc, MethodWrapperEvents(cfg, m, c.boundClassName, lsn));
  }

  /** One more wrapper signature after those of `xs`. This is a list-indexing
      step in the proofs of `MethodsBegin` and `ConstructorsBegin`, with no
      counterpart of its own in the writer. */
  lemma SignaturesSnoc(cfg: Config, c: ClassInfo, a: seq<Event>, xs: seq<MethodInfo>, m: MethodInfo, forInnerClass: bool)
    requires |a| == |xs|
    requires forall i :: 0 <= i < |xs| ==> a[i] == WrapperSignature(cfg, c, xs[i], forInnerClass)
    ensures |a + [WrapperSignature(cfg, c, m, forInnerClass)]| == |xs + [m]|
    ensures forall i :: 0 <= i < |xs + [m]| ==>
              (a + [WrapperSignature(cfg, c, m, forInnerClass)])[i] == WrapperSignature(cfg, c, (xs + [m])[i], forInnerClass)
  {
    hide WrapperSignature;
  }

  /** The constructors section declares one wrapper per constructor, in order. */
  lemma {:induction false} ConstructorsBegin(cfg: Config, c: ClassInfo, ms: seq<MethodInfo>)
    requires MethodLevelsBelow(ms, |c.listSuperClassNames|, false)
    ensures |BeganMethods(ConstructorsEvents(cfg, c, ms))| == |ms|
    ensures forall i :: 0 <= i < |ms| ==> BeganMethods(ConstructorsEvents(cfg, c, ms))[i] == WrapperSignature(cfg, c, ms[i], false)
    decreases |ms|
  {
    if ms != [] {
      var m := ms[|ms| - 1];
      var init := ms[..|ms| - 1];
      assert m.inheritanceLevel < |c.listSuperClassNames|;
      assert MethodLevelsBelow(init, |c.listSuperClassNames|, false);
      assert ms == init + [m];
      var t := ConstructorsEvents(cfg, c, init);
      var e := ConstructorEntryEvents(cfg, c, m);
      assert ConstructorsEvents(cfg, c, ms) == t + e;
      hide ConstructorEntryEvents, WrapperSignature, ConstructorsEvents, BeganMethods, MethodLevelsBelow;
      ConstructorsBegin(cfg, c, init);
      ConstructorEntryBegins(cfg, c, m);
      BeganMethodsAppend(t, e);
      SignaturesSnoc(cfg, c, BeganMethods(t), init, m, false);
    }
  }

  /** What a wrapper's signature says: public; static exactly for static methods
      and for constructors; in the root accessor a constructor returns the bound
      class; the parameters and thrown types are the method's own. */
  lemma WrapperSignatureShape(cfg: Config, c: ClassInfo, m: MethodInfo, forInnerClass: bool)
    ensures var h := WrapperSignature(cfg, c, m, forInnerClass);
      && h.BeginMethod?
      && Public in h.methodModifiers
      && (Static in h.methodModifiers <==> m.isStaticMethod || m.isConstructor)
      && (!forInnerClass && m.isConstructor ==> h.returnType == Some(c.boundClassName))
      && (IsInitializer(m) && !(m.isConstructor && !forInnerClass) ==> h.returnType == Some("void"))
      && (!IsInitializer(m) && !m.isConstructor ==> h.returnType == Some(m.returnTypeName))
      && |h.parameters| == 2 * |m.parameterTypes|
      && h.throwsTypes == m.thrownTypeNames
  {
  }

  // ----- lookups agree with the declarations they reach -----

  /** The class-literal list of a lookup is empty exactly when there are no parameters. */
  lemma LookupTypesEmpty(ps: seq<FieldInfo>)
    ensures ParametersTypesCommaSeparated(ps) == "" <==> ps == []
  {
    var xs := ParameterLookupTypes(ps);
    JoinEmpty(xs, ", ");
    if |xs| == 1 {
      assert |xs[0]| >= 6;
    }
  }

  /** A root-accessor method lookup names the declaring class of the method's
      level, then the method's name as a literal, then one class literal per
      parameter; constructors and instance initializers are looked up among
      the bound class's constructors, by their parameter types alone. */
  lemma RootLookupArguments(m: MethodInfo, listSuperClassNames: seq<string>)
    requires m.inheritanceLevel < |listSuperClassNames|
    ensures var e := MethodLookupEvent(m, listSuperClassNames);
      var typesCsv := ParametersTypesCommaSeparated(m.parameterTypes);
      && e.EmitStatement?
      && (m.isConstructor || m.isInstanceInitializer ==> e.args == [typesCsv])
      && (!m.isConstructor && !m.isInstanceInitializer ==>
            && |e.args| == 2
            && e.args[0] == listSuperClassNames[m.inheritanceLevel] + ".class"
            && e.args[1] == if m.parameterTypes == [] then StringLiteral(m.methodName)
                            else StringLiteral(m.methodName) + "," + typesCsv)
  {
    hide StringLiteral, ParametersTypesCommaSeparated, JoinedParams, GetSuperClassName;
    var typesCsv := ParametersTypesCommaSeparated(m.parameterTypes);
    JoinedParamsPair(StringLiteral(m.methodName), typesCsv);
    LookupTypesEmpty(m.parameterTypes);
  }

  /** A root-accessor invocation passes the receiver (`null` for a static method)
      before the arguments, and a constructor invocation the arguments alone. */
  lemma RootInvocationArguments(m: MethodInfo, returnType: string)
    ensures var e := MethodInvocationEvent(m, returnType);
      var namesCsv := ParametersNamesCommaSeparated(m.parameterTypes);
      && e.EmitStatement?
      && |e.args| == 2
      && (m.isConstructor ==> e.args[1] == namesCsv)
      && (!m.isConstructor ==>
            e.args[1] == if namesCsv == "" then InvocationTarget(m.isStaticMethod)
                         else InvocationTarget(m.isStaticMethod) + "," + namesCsv)
  {
    JoinedParamsPair(InvocationTarget(m.isStaticMethod), ParametersNamesCommaSeparated(m.parameterTypes));
  }

  /** An inner-class accessor is static exactly when the inner class is. A
      non-static inner class's constructor takes the enclosing instance first:
      its lookup then lists the enclosing class before the parameter types, and
      its invocation passes the bound object before the arguments; a static
      inner class's lookup and invocation list the parameters alone. */
  lemma InnerAccessorHiddenArguments(cfg: Config, ic: ClassInfo, m: MethodInfo)
    ensures var b := InnerClassAccessorBody(cfg, ic, m);
      var typesCsv := ParametersTypesCommaSeparated(m.parameterTypes);
      var namesCsv := ParametersNamesCommaSeparated(m.parameterTypes);
      && |b| == 15
      && b[0].BeginMethod? && (Static in b[0].methodModifiers <==> ic.isStaticInnerClass)
      && b[11].EmitStatement? && |b[11].args| == 2 && b[13].EmitStatement? && |b[13].args| == 2
      && (ic.isStaticInnerClass ==> b[11].args[1] == typesCsv && b[13].args[1] == namesCsv)
      && (!ic.isStaticInnerClass ==>
            && b[11].args[1] == (if m.parameterTypes == [] then "boundClass" else "boundClass," + typesCsv)
            && b[13].args[1] == (if namesCsv == "" then "boundObject" else "boundObject," + namesCsv))
  {
    hide StringLiteral, ParametersTypesCommaSeparated, ParametersNamesCommaSeparated, ParameterTypesAndNames,
         JoinedParams;
    var typesCsv := ParametersTypesCommaSeparated(m.parameterTypes);
    var namesCsv := ParametersNamesCommaSeparated(m.parameterTypes);
    var b := InnerClassAccessorBody(cfg, ic, m);
    assert b[0].methodModifiers == StaticIf(ic.isStaticInnerClass, {Public});
    assert b[11].args[1] == JoinedParams([HiddenParameterClass(ic), typesCsv]);
    assert b[13].args[1] == JoinedParams([HiddenParameter(ic), namesCsv]);
    hide InnerClassAccessorBody;
    JoinedParamsPair(HiddenParameterClass(ic), typesCsv);
    JoinedParamsPair(HiddenParameter(ic), namesCsv);
    LookupTypesEmpty(m.parameterTypes);
  }

  /** The nested BoundBox of a static inner class is a static class whose
      `boundClass` field is static and is set by a static initializer; for a
      non-static inner class all three are instance members. The initializer
      searches the declared classes of the enclosing BoundBox's bound class,
      reached through `.this` when the enclosing class is itself a non-static
      inner class. */
  lemma InnerBoundBoxStaticness(cfg: Config, enclosing: ClassInfo, ic: ClassInfo)
    ensures var t := InnerClassWrapperEvents(cfg, enclosing, ic);
      && |t| > 5
      && t[0].BeginType? && (Static in t[0].typeModifiers <==> ic.isStaticInnerClass)
      && t[3] == EmitField("Class<?>", "boundClass", StaticIf(ic.isStaticInnerClass, {Private}))
      && (Static in t[3].fieldModifiers <==> ic.isStaticInnerClass)
      && t[5] == BeginInitializer(ic.isStaticInnerClass)
      && |t| > 7
      && t[7] == BeginControlFlow("for(Class<?> clazz : " + BoundBoxName(cfg, enclosing)
                                  + (if enclosing.isInnerClass && !enclosing.isStaticInnerClass then ".this" else "")
                                  + ".boundClass.getDeclaredClasses())")
  {
    hide BoundBoxConstructorEvents, FieldsSection, MethodsSection, InnerClassSections, StringLiteral, BoundBoxName;
    var t := InnerClassWrapperEvents(cfg, enclosing, ic);
    assert t[5] == InnerClassLookupEvents(cfg, enclosing, ic)[0];
    assert t[7] == InnerClassLookupEvents(cfg, enclosing, ic)[2];
  }
}
