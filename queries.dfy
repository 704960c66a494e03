/** Views of an event trace that the properties of the generator are stated in:
    the control-flow blocks it opens, the methods it begins, and the way its
    type declarations nest. */
module TraceQueries {
  import opened JavaWriterSink

  /** The texts of the control-flow blocks a trace opens, in order. */
  function Flows(t: seq<Event>): seq<string>
    decreases |t|
  {
    if t == [] then []
    else Flows(t[..|t| - 1]) + (if t[|t| - 1].BeginControlFlow? then [t[|t| - 1].controlFlow] else [])
  }

  lemma {:induction false} FlowsAppend(a: seq<Event>, b: seq<Event>)
    ensures Flows(a + b) == Flows(a) + Flows(b)
    decreases |b|
  {
    if b == [] {
      assert a + b == a;
    } else {
      assert (a + b)[..|a + b| - 1] == a + b[..|b| - 1];
      FlowsAppend(a, b[..|b| - 1]);
    }
  }

  /** The control flow of a trace with one block, opened by `e`. */
  lemma {:induction false} FlowsAround(a: seq<Event>, e: Event, b: seq<Event>)
    requires forall x | x in a + b :: !x.BeginControlFlow?
    requires e.BeginControlFlow?
    ensures Flows(a + [e] + b) == [e.controlFlow]
  {
    NoFlows(a);
    NoFlows(b);
    FlowsAppend(a, [e]);
    FlowsAppend(a + [e], b);
  }

  lemma {:induction false} NoFlows(t: seq<Event>)
    requires forall x | x in t :: !x.BeginControlFlow?
    ensures Flows(t) == []
    decreases |t|
  {
    if t != [] {
      assert t[|t| - 1] in t;
      assert forall x | x in t[..|t| - 1] :: x in t;
      NoFlows(t[..|t| - 1]);
    }
  }

  /** The control flow of a trace whose blocks are opened at positions `i` and `j` alone. */
  lemma {:induction false} FlowsAtTwo(t: seq<Event>, i: nat, j: nat)
    requires i < j < |t| && t[i].BeginControlFlow? && t[j].BeginControlFlow?
    requires forall n | 0 <= n < |t| && n != i && n != j :: !t[n].BeginControlFlow?
    ensures Flows(t) == [t[i].controlFlow, t[j].controlFlow]
  {
    var a, b, c := t[..i], t[i + 1..j], t[j + 1..];
    assert t == a + [t[i]] + b + [t[j]] + c;
    assert forall x: Event | x in a + b :: !x.BeginControlFlow?;
    assert forall x: Event | x in c :: !x.BeginControlFlow?;
    FlowsAround(a, t[i], b);
    NoFlows(c);
    FlowsAppend(a + [t[i]] + b, [t[j]]);
    FlowsAppend(a + [t[i]] + b + [t[j]], c);
  }

  /** The control flow of a trace whose blocks are opened at positions `i`, `j`
      and `k` alone. */
  lemma {:induction false} FlowsAtThree(t: seq<Event>, i: nat, j: nat, k: nat)
    requires i < j < k < |t| && t[i].BeginControlFlow? && t[j].BeginControlFlow? && t[k].BeginControlFlow?
    requires forall n | 0 <= n < |t| && n != i && n != j && n != k :: !t[n].BeginControlFlow?
    ensures Flows(t) == [t[i].controlFlow, t[j].controlFlow, t[k].controlFlow]
  {
    var u := t[..k];
    assert forall n | 0 <= n < |u| && n != i && n != j :: !u[n].BeginControlFlow?;
    FlowsAtTwo(u, i, j);
    var c := t[k + 1..];
    assert t == u + [t[k]] + c;
    assert forall x: Event | x in c :: !x.BeginControlFlow?;
    NoFlows(c);
    FlowsAppend(u, [t[k]]);
    FlowsAppend(u + [t[k]], c);
  }

  /** The `beginMethod` events of a trace, in order. */
  function BeganMethods(t: seq<Event>): seq<Event>
    decreases |t|
  {
    if t == [] then []
    else BeganMethods(t[..|t| - 1]) + (if t[|t| - 1].BeginMethod? then [t[|t| - 1]] else [])
  }

  lemma {:induction false} BeganMethodsAppend(a: seq<Event>, b: seq<Event>)
    ensures BeganMethods(a + b) == BeganMethods(a) + BeganMethods(b)
    decreases |b|
  {
    if b == [] {
      assert a + b == a;
    } else {
      assert (a + b)[..|a + b| - 1] == a + b[..|b| - 1];
      BeganMethodsAppend(a, b[..|b| - 1]);
    }
  }

  lemma {:induction false} NoBeganMethods(t: seq<Event>)
    requires forall x | x in t :: !x.BeginMethod?
    ensures BeganMethods(t) == []
    decreases |t|
  {
    if t != [] {
      assert t[|t| - 1] in t;
      assert forall x | x in t[..|t| - 1] :: x in t;
      NoBeganMethods(t[..|t| - 1]);
    }
  }

  /** The methods begun by a trace that begins one method, `e`, first. */
  lemma {:induction false} BeganMethodsFirst(e: Event, b: seq<Event>)
    requires e.BeginMethod?
    requires forall x | x in b :: !x.BeginMethod?
    ensures BeganMethods([e] + b) == [e]
  {
    NoBeganMethods(b);
    BeganMethodsAppend([e], b);
  }

  /** The type declarations of a trace as brackets: `true` for `beginType`,
      `false` for `endType`. */
  function Brackets(t: seq<Event>): seq<bool>
    decreases |t|
  {
    if t == [] then []
    else Brackets(t[..|t| - 1])
         + (if t[|t| - 1].BeginType? then [true] else if t[|t| - 1].EndType? then [false] else [])
  }

  lemma {:induction false} BracketsAppend(a: seq<Event>, b: seq<Event>)
    ensures Brackets(a + b) == Brackets(a) + Brackets(b)
    decreases |b|
  {
    if b == [] {
      assert a + b == a;
    } else {
      assert (a + b)[..|a + b| - 1] == a + b[..|b| - 1];
      BracketsAppend(a, b[..|b| - 1]);
    }
  }

  /** No event of the trace opens or closes a type. */
  predicate NoTypeEvents(t: seq<Event>) {
    forall e | e in t :: !e.BeginType? && !e.EndType?
  }

  /** No event of the trace is a javadoc. */
  predicate NoJavadoc(t: seq<Event>) {
    forall e | e in t :: !e.EmitJavadoc?
  }

  lemma {:induction false} NoTypeEventsNoBrackets(t: seq<Event>)
    requires NoTypeEvents(t)
    ensures Brackets(t) == []
    decreases |t|
  {
    if t != [] {
      assert t[|t| - 1] in t;
      assert forall e | e in t[..|t| - 1] :: e in t;
      NoTypeEventsNoBrackets(t[..|t| - 1]);
    }
  }

  /** A bracket sequence that closes everything it opens, and never closes more
      than it has opened. */
  predicate Balanced(b: seq<bool>) {
    Depth(b) == 0 && forall k :: 0 <= k <= |b| ==> Depth(b[..k]) >= 0
  }

  /** Opened minus closed brackets. */
  function Depth(b: seq<bool>): int
    decreases |b|
  {
    if b == [] then 0 else Depth(b[..|b| - 1]) + (if b[|b| - 1] then 1 else -1)
  }

  lemma {:induction false} DepthAppend(a: seq<bool>, b: seq<bool>)
    ensures Depth(a + b) == Depth(a) + Depth(b)
    decreases |b|
  {
    if b == [] {
      assert a + b == a;
    } else {
      assert (a + b)[..|a + b| - 1] == a + b[..|b| - 1];
      DepthAppend(a, b[..|b| - 1]);
    }
  }

  /** Balanced sequences stay balanced side by side. */
  lemma BalancedAppend(a: seq<bool>, b: seq<bool>)
    requires Balanced(a) && Balanced(b)
    ensures Balanced(a + b)
  {
    DepthAppend(a, b);
    forall k | 0 <= k <= |a + b| ensures Depth((a + b)[..k]) >= 0 {
      if k <= |a| {
        assert (a + b)[..k] == a[..k];
      } else {
        assert (a + b)[..k] == a + b[..k - |a|];
        DepthAppend(a, b[..k - |a|]);
      }
    }
  }

  /** A balanced sequence wrapped in one more pair of brackets is balanced. */
  lemma BalancedWrap(b: seq<bool>)
    requires Balanced(b)
    ensures Balanced([true] + b + [false])
  {
    var w := [true] + b + [false];
    DepthAppend([true], b);
    DepthAppend([true] + b, [false]);
    forall k | 0 <= k <= |w| ensures Depth(w[..k]) >= 0 {
      if k == 0 {
        assert w[..k] == [];
      } else if k <= |b| + 1 {
        assert w[..k] == [true] + b[..k - 1];
        DepthAppend([true], b[..k - 1]);
      } else {
        assert w[..k] == w;
      }
    }
  }
}
