/** The string helpers of `BoundboxWriter`: the return-cast table, the generic
    stripping rule, the class reference for an inheritance level, and the
    builders of parameter lists. */
module BoundboxHelpers {
  import opened Wrappers
  import opened JavaStrings
  import opened BoundboxModel

  // ----- return casts -----

  /** Java's primitive types and the boxed type a reflective read returns for each. */
  const BoxedTypes: map<string, string> := map[
    "int" := "Integer", "long" := "Long", "byte" := "Byte", "short" := "Short",
    "boolean" := "Boolean", "double" := "Double", "float" := "Float", "char" := "Character"]

  /** The cast put in front of a reflective read: primitives through their boxed
      type, every other type verbatim, always followed by one space. */
  function CreateCastReturnTypeString(returnType: string): (r: string)
    ensures |r| >= 3 && r[0] == '(' && r[|r| - 2..] == ") "
  {
    var castReturnTypeString := "(" + (
      if returnType == "int" then "Integer"
      else if returnType == "long" then "Long"
      else if returnType == "byte" then "Byte"
      else if returnType == "short" then "Short"
      else if returnType == "boolean" then "Boolean"
      else if returnType == "double" then "Double"
      else if returnType == "float" then "Float"
      else if returnType == "char" then "Character"
      else returnType) + ")";
    if castReturnTypeString != "" then castReturnTypeString + " " else castReturnTypeString
  }

  /** The cast names the boxed type of a primitive and any other type verbatim. */
  lemma CastBoxesPrimitives(returnType: string)
    ensures returnType in BoxedTypes ==> CreateCastReturnTypeString(returnType) == "(" + BoxedTypes[returnType] + ") "
    ensures returnType !in BoxedTypes ==> CreateCastReturnTypeString(returnType) == "(" + returnType + ") "
  {
  }

  /** The type a cast names is never a primitive, so the cast applies to the
      boxed object a reflective call returns. */
  lemma CastTargetIsNeverPrimitive(returnType: string)
    ensures var r := CreateCastReturnTypeString(returnType);
            r[1..|r| - 2] !in BoxedTypes
  {
    var r := CreateCastReturnTypeString(returnType);
    CastBoxesPrimitives(returnType);
    if returnType in BoxedTypes {
      assert r[1..|r| - 2] == BoxedTypes[returnType];
    } else {
      assert r[1..|r| - 2] == returnType;
    }
  }

  // ----- generic stripping: `fieldTypeName.replaceAll("<.*>", "")` -----

  /** The characters `.` does not match in a `java.util.regex.Pattern`. */
  predicate IsLineTerminator(c: char) {
    c == '\n' || c == '\r' || c == '\U{85}' || c == '\U{2028}' || c == '\U{2029}'
  }

  /** No line terminator among the first `k` characters of `t`. */
  predicate OnFirstLine(t: string, k: nat)
    requires k <= |t|
  {
    forall j :: 0 <= j < k ==> !IsLineTerminator(t[j])
  }

  /** Where the greedy `.*>` that follows a `<` ends: the last `>` of `t` that is
      not preceded by a line terminator, if there is one. */
  function LastCloseOnFirstLine(t: string): (r: Option<nat>)
    ensures r.Some? ==> r.value < |t| && t[r.value] == '>' && OnFirstLine(t, r.value)
    ensures forall k :: 0 <= k < |t| && t[k] == '>' && OnFirstLine(t, k) ==> r.Some? && k <= r.value
  {
    if t == [] then None
    else if IsLineTerminator(t[0]) then None
    else match LastCloseOnFirstLine(t[1..])
      case Some(k) => Some(k + 1)
      case None => if t[0] == '>' then Some(0) else None
  }

  /** `replaceAll("<.*>", "")`: scanning left to right, each `<` that has a `>`
      later on its line is removed together with everything up to the last such
      `>`, and the scan resumes after it. */
  function ExtractRawType(s: string): (r: string)
    ensures |r| <= |s|
    decreases |s|
  {
    if s == [] then ""
    else if s[0] == '<' && LastCloseOnFirstLine(s[1..]).Some? then
      ExtractRawType(s[LastCloseOnFirstLine(s[1..]).value + 2..])
    else [s[0]] + ExtractRawType(s[1..])
  }

  /** A type name with no closing `>` is left unchanged. */
  lemma {:induction false} ExtractRawTypeWithoutClose(s: string)
    requires '>' !in s
    ensures ExtractRawType(s) == s
    decreases |s|
  {
    if s != [] {
      var t := s[1..];
      assert forall k :: 0 <= k < |t| ==> t[k] == s[k + 1];
      assert LastCloseOnFirstLine(t).None?;
      ExtractRawTypeWithoutClose(s[1..]);
    }
  }

  /** A type name with no `<` is left unchanged. */
  lemma {:induction false} ExtractRawTypeWithoutOpen(s: string)
    requires '<' !in s
    ensures ExtractRawType(s) == s
    decreases |s|
  {
    if s != [] {
      ExtractRawTypeWithoutOpen(s[1..]);
    }
  }

  /** Characters before the first `<` are kept as they are. */
  lemma {:induction false} ExtractRawTypeKeepsPrefix(p: string, q: string)
    requires '<' !in p
    ensures ExtractRawType(p + q) == p + ExtractRawType(q)
    decreases |p|
  {
    if p != [] {
      var pq := p + q;
      assert pq[0] == p[0] && p[0] != '<';
      assert pq[1..] == p[1..] + q;
      assert ExtractRawType(pq) == [p[0]] + ExtractRawType(pq[1..]);
      ExtractRawTypeKeepsPrefix(p[1..], q);
      assert p == [p[0]] + p[1..];
    } else {
      assert p + q == q;
    }
  }

  /** The greedy match ends at `d` when `d` is a `>` on the first line and no
      `>` follows it. */
  lemma LastCloseAt(t: string, d: nat)
    requires d < |t| && t[d] == '>' && OnFirstLine(t, d)
    requires forall k :: d < k < |t| ==> t[k] != '>'
    ensures LastCloseOnFirstLine(t) == Some(d)
  {
  }

  /** A `<` at the head of `u` whose last `>` is at index `e`, with no line
      terminator in between, is removed together with everything up to `e`. */
  lemma StripLeadingSpan(u: string, e: nat)
    requires 0 < e < |u| && u[0] == '<' && u[e] == '>'
    requires forall k :: 0 < k < e ==> !IsLineTerminator(u[k])
    requires '>' !in u[e + 1..]
    ensures ExtractRawType(u) == u[e + 1..]
  {
    var t := u[1..];
    forall k | 0 <= k < e - 1 ensures !IsLineTerminator(t[k]) {
      assert t[k] == u[k + 1];
    }
    forall k | e - 1 < k < |t| ensures t[k] != '>' {
      assert t[k] == u[e + 1..][k - e];
    }
    LastCloseAt(t, e - 1);
    assert u[e + 1..] == u[(e - 1) + 2..];
    ExtractRawTypeWithoutClose(u[e + 1..]);
  }

  /** On a one-line type name whose first `<` at index `i` is followed by a `>`,
      the last `>` being at index `j`, exactly the span `s[i..j]` inclusive goes. */
  lemma ExtractRawTypeOnOneLine(s: string, i: nat, j: nat)
    requires forall k :: 0 <= k < |s| ==> !IsLineTerminator(s[k])
    requires i < j < |s| && s[i] == '<' && s[j] == '>'
    requires '<' !in s[..i] && '>' !in s[j + 1..]
    ensures ExtractRawType(s) == s[..i] + s[j + 1..]
  {
    assert s == s[..i] + s[i..];
    ExtractRawTypeKeepsPrefix(s[..i], s[i..]);
    var u := s[i..];
    forall k | 0 < k < j - i ensures !IsLineTerminator(u[k]) {
      assert u[k] == s[i + k];
    }
    assert u[j - i + 1..] == s[j + 1..];
    StripLeadingSpan(u, j - i);
  }

  /** On a one-line type name, a `<` with no `>` after it is left in place. */
  lemma ExtractRawTypeUnclosedOnOneLine(s: string, i: nat)
    requires i < |s| && s[i] == '<'
    requires '<' !in s[..i] && '>' !in s[i..]
    ensures ExtractRawType(s) == s
  {
    assert s == s[..i] + s[i..];
    ExtractRawTypeKeepsPrefix(s[..i], s[i..]);
    ExtractRawTypeWithoutClose(s[i..]);
  }

  // ----- class reference for an inheritance level -----

  /** `getSuperClassName`: the root accessor names the declaring class by its
      entry in the super-class list, as a class literal. */
  function GetSuperClassName(inheritanceLevel: nat, listSuperClassNames: seq<string>): (r: string)
    requires inheritanceLevel < |listSuperClassNames|
    ensures |r| == |listSuperClassNames[inheritanceLevel]| + 6
    ensures r[..|r| - 6] == listSuperClassNames[inheritanceLevel] && r[|r| - 6..] == ".class"
  {
    listSuperClassNames[inheritanceLevel] + ".class"
  }

  /** The value `getSuperClassChain` builds for an inner-class member. */
  function SuperClassChain(inheritanceLevel: nat): string {
    if inheritanceLevel == 0 then "boundClass"
    else SuperClassChain(inheritanceLevel - 1) + ".getSuperclass()"
  }

  /** The chain is `boundClass` followed by exactly `inheritanceLevel` calls of
      `.getSuperclass()`. */
  lemma {:induction false} SuperClassChainIsRepeat(inheritanceLevel: nat)
    ensures SuperClassChain(inheritanceLevel) == "boundClass" + Repeat(".getSuperclass()", inheritanceLevel)
  {
    if inheritanceLevel > 0 {
      SuperClassChainIsRepeat(inheritanceLevel - 1);
      RepeatSnoc(".getSuperclass()", inheritanceLevel - 1);
    }
  }

  /** Different levels give different chains: the chain determines the level. */
  lemma SuperClassChainInjective(a: nat, b: nat)
    requires SuperClassChain(a) == SuperClassChain(b)
    ensures a == b
  {
    SuperClassChainIsRepeat(a);
    SuperClassChainIsRepeat(b);
    assert |SuperClassChain(a)| == 10 + 16 * a;
  }

  /** `getSuperClassChain`: appends one `.getSuperclass()` per level to a builder. */
  method GetSuperClassChain(inheritanceLevel: nat) returns (r: string)
    ensures r == "boundClass" + Repeat(".getSuperclass()", inheritanceLevel)
    ensures r == SuperClassChain(inheritanceLevel)
  {
    var superClassChain := "boundClass";
    var level := 0;
    while level < inheritanceLevel
      invariant level <= inheritanceLevel
      invariant superClassChain == SuperClassChain(level)
    {
      superClassChain := superClassChain + ".getSuperclass()";
      level := level + 1;
    }
    r := superClassChain;
    SuperClassChainIsRepeat(inheritanceLevel);
  }

  // ----- parameter lists -----

  /** The parameter list handed to `beginMethod`: type and name of each parameter. */
  function ParameterTypesAndNames(ps: seq<FieldInfo>): (r: seq<string>)
    ensures |r| == 2 * |ps|
    ensures forall i :: 0 <= i < |ps| ==> r[2 * i] == ps[i].fieldTypeName && r[2 * i + 1] == ps[i].fieldName
    decreases |ps|
  {
    if ps == [] then []
    else
      var init := ps[..|ps| - 1];
      var r0 := ParameterTypesAndNames(init);
      assert forall i :: 0 <= i < |init| ==> init[i] == ps[i];
      r0 + [ps[|ps| - 1].fieldTypeName, ps[|ps| - 1].fieldName]
  }

  /** The class literals a reflective lookup names, one per parameter. */
  function ParameterLookupTypes(ps: seq<FieldInfo>): (r: seq<string>)
    ensures |r| == |ps|
    ensures forall i :: 0 <= i < |ps| ==> r[i] == ExtractRawType(ps[i].fieldTypeName) + ".class"
    decreases |ps|
  {
    if ps == [] then []
    else
      var init := ps[..|ps| - 1];
      var r0 := ParameterLookupTypes(init);
      assert forall i :: 0 <= i < |init| ==> init[i] == ps[i];
      r0 + [ExtractRawType(ps[|ps| - 1].fieldTypeName) + ".class"]
  }

  /** The parameter names, in order. */
  function ParameterNames(ps: seq<FieldInfo>): (r: seq<string>)
    ensures |r| == |ps|
    ensures forall i :: 0 <= i < |ps| ==> r[i] == ps[i].fieldName
    decreases |ps|
  {
    if ps == [] then []
    else
      var init := ps[..|ps| - 1];
      var r0 := ParameterNames(init);
      assert forall i :: 0 <= i < |init| ==> init[i] == ps[i];
      r0 + [ps[|ps| - 1].fieldName]
  }

  function ParametersTypesCommaSeparated(ps: seq<FieldInfo>): string {
    Join(ParameterLookupTypes(ps), ", ")
  }

  function ParametersNamesCommaSeparated(ps: seq<FieldInfo>): string {
    Join(ParameterNames(ps), ", ")
  }

  /** `createListOfParameterTypesAndNames`. */
  method CreateListOfParameterTypesAndNames(ps: seq<FieldInfo>) returns (r: seq<string>)
    ensures r == ParameterTypesAndNames(ps)
  {
    var listParameters := [];
    var i := 0;
    while i < |ps|
      invariant i <= |ps|
      invariant listParameters == ParameterTypesAndNames(ps[..i])
    {
      assert ps[..i + 1][..i] == ps[..i];
      listParameters := listParameters + [ps[i].fieldTypeName];
      listParameters := listParameters + [ps[i].fieldName];
      i := i + 1;
    }
    assert ps[..i] == ps;
    r := listParameters;
  }

  /** `createListOfParametersTypesCommaSeparated`. */
  method CreateListOfParametersTypesCommaSeparated(ps: seq<FieldInfo>) returns (r: string)
    ensures r == Join(ParameterLookupTypes(ps), ", ")
  {
    var listParameters := [];
    var i := 0;
    while i < |ps|
      invariant i <= |ps|
      invariant listParameters == ParameterLookupTypes(ps[..i])
    {
      assert ps[..i + 1][..i] == ps[..i];
      listParameters := listParameters + [ExtractRawType(ps[i].fieldTypeName) + ".class"];
      i := i + 1;
    }
    assert ps[..i] == ps;
    r := Join(listParameters, ", ");
  }

  /** `createListOfParametersNamesCommaSeparated`. */
  method CreateListOfParametersNamesCommaSeparated(ps: seq<FieldInfo>) returns (r: string)
    ensures r == Join(ParameterNames(ps), ", ")
  {
    var listParameters := [];
    var i := 0;
    while i < |ps|
      invariant i <= |ps|
      invariant listParameters == ParameterNames(ps[..i])
    {
      assert ps[..i + 1][..i] == ps[..i];
      listParameters := listParameters + [ps[i].fieldName];
      i := i + 1;
    }
    assert ps[..i] == ps;
    r := Join(listParameters, ", ");
  }

  // ----- makeParams -----

  /** What `makeParams` returns: its non-empty arguments, in order, joined by ",". */
  function JoinedParams(params: seq<string>): string {
    Join(NonEmptyOnly(params), ",")
  }

  /** `makeParams(String... params)`. */
  method MakeParams(params: seq<string>) returns (r: string)
    ensures r == Join(NonEmptyOnly(params), ",")
  {
    var paramList := [];
    var i := 0;
    while i < |params|
      invariant i <= |params|
      invariant paramList == NonEmptyOnly(params[..i])
    {
      assert params[..i + 1][..i] == params[..i];
      if params[i] != "" {
        paramList := paramList + [params[i]];
      }
      i := i + 1;
    }
    assert params[..i] == params;
    r := Join(paramList, ",");
  }

  /** Two arguments: an empty one disappears, and two non-empty ones are joined
      by a single comma. */
  lemma JoinedParamsPair(a: string, b: string)
    ensures JoinedParams([a, b]) == if a == "" then b else if b == "" then a else a + "," + b
  {
    assert [a, b][..1] == [a];
    assert [a][..0] == [];
    assert NonEmptyOnly([a]) == if a == "" then [] else [a];
    assert NonEmptyOnly([a, b]) == NonEmptyOnly([a]) + (if b == "" then [] else [b]);
    if a != "" && b != "" {
      JoinSnoc([a], b, ",");
    }
  }

  /** `makeParams` yields "" exactly when all its arguments are "". */
  lemma JoinedParamsEmpty(params: seq<string>)
    ensures JoinedParams(params) == "" <==> forall i :: 0 <= i < |params| ==> params[i] == ""
  {
    NonEmptyOnlyNone(params);
    JoinEmpty(NonEmptyOnly(params), ",");
  }
}
