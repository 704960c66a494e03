/** The structural model the generator reads: the `org.boundbox.model` classes
    `ClassInfo`, `InnerClassInfo`, `FieldInfo` and `MethodInfo`, as values. */
module BoundboxModel {

  /** The `javax.lang.model.element.Modifier` values the generator uses. */
  datatype Modifier = Public | Private | Static | Final

  /** A field, or a parameter (the model reuses `FieldInfo` for parameters). */
  datatype FieldInfo = FieldInfo(
    fieldName: string,
    fieldTypeName: string,
    isStaticField: bool,
    isFinalField: bool,
    inheritanceLevel: nat)

  /** A method, constructor or initializer. */
  datatype MethodInfo = MethodInfo(
    methodName: string,
    returnTypeName: string,
    parameterTypes: seq<FieldInfo>,
    thrownTypeNames: seq<string>,
    isConstructor: bool,
    isStaticMethod: bool,
    isInstanceInitializer: bool,
    isStaticInitializer: bool,
    hasReturnType: bool,
    inheritanceLevel: nat)

  predicate IsInitializer(m: MethodInfo) {
    m.isInstanceInitializer || m.isStaticInitializer
  }

  /** The mutable import list a `ClassInfo` owns; the generator rewrites it in place. */
  class ImportList {
    var items: seq<string>

    constructor (items: seq<string>)
      ensures this.items == items
    {
      this.items := items;
    }

    method Clear()
      modifies this
      ensures items == []
    {
      items := [];
    }

    method Add(s: string)
      modifies this
      ensures items == old(items) + [s]
    {
      items := items + [s];
    }
  }

  /** A class to wrap. `isInnerClass` records whether the Java object is an
      `InnerClassInfo`, and `isStaticInnerClass` is that subclass's flag.
      `listSuperClassNames[0]` is the class itself, entry i its i-th ancestor. */
  datatype ClassInfo = ClassInfo(
    className: string,
    boundClassName: string,
    boundClassPackageName: string,
    listImports: ImportList,
    listConstructorInfos: seq<MethodInfo>,
    listFieldInfos: seq<FieldInfo>,
    listMethodInfos: seq<MethodInfo>,
    listInnerClassInfo: seq<ClassInfo>,
    listSuperClassNames: seq<string>,
    isInnerClass: bool,
    isStaticInnerClass: bool)

  /** Every field's inheritance level is an index into a super-class list of length `n`. */
  predicate FieldLevelsBelow(fs: seq<FieldInfo>, n: nat) {
    forall i :: 0 <= i < |fs| ==> fs[i].inheritanceLevel < n
  }

  /** The same for methods; initializers are exempt when `skippingInitializers`. */
  predicate MethodLevelsBelow(ms: seq<MethodInfo>, n: nat, skippingInitializers: bool) {
    forall i :: 0 <= i < |ms| && !(skippingInitializers && IsInitializer(ms[i])) ==> ms[i].inheritanceLevel < n
  }

  /** The inheritance levels the root accessor looks up through
      `listSuperClassNames.get(level)`: every field, every constructor and every
      method that is not an initializer. Outside this the Java code throws
      `IndexOutOfBoundsException`. */
  predicate RootLevelsValid(c: ClassInfo) {
    && FieldLevelsBelow(c.listFieldInfos, |c.listSuperClassNames|)
    && MethodLevelsBelow(c.listConstructorInfos, |c.listSuperClassNames|, false)
    && MethodLevelsBelow(c.listMethodInfos, |c.listSuperClassNames|, true)
  }
}
