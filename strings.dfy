/** String utilities the generator borrows from Apache Commons Lang and JavaWriter. */
module JavaStrings {

  /** `StringUtils.join(list, sep)`: the elements in order, `sep` between neighbours,
      and the empty string for an empty list. */
  function Join(xs: seq<string>, sep: string): (r: string)
    decreases |xs|
  {
    if xs == [] then ""
    else if |xs| == 1 then xs[0]
    else Join(xs[..|xs| - 1], sep) + sep + xs[|xs| - 1]
  }

  lemma JoinSingleton(x: string, sep: string)
    ensures Join([x], sep) == x
  {
  }

  /** Joining one more element puts exactly one separator before it. */
  lemma JoinSnoc(xs: seq<string>, x: string, sep: string)
    requires xs != []
    ensures Join(xs + [x], sep) == Join(xs, sep) + sep + x
  {
    assert (xs + [x])[..|xs + [x]| - 1] == xs;
  }

  /** With a non-empty separator, a join is empty only if it joined nothing
      or a single empty string. */
  lemma {:induction false} JoinEmpty(xs: seq<string>, sep: string)
    requires sep != ""
    ensures Join(xs, sep) == "" <==> (xs == [] || (|xs| == 1 && xs[0] == ""))
  {
    if |xs| > 1 {
      var r := Join(xs, sep);
      assert r == Join(xs[..|xs| - 1], sep) + sep + xs[|xs| - 1];
      assert |r| >= |sep| > 0;
    }
  }

  /** `StringUtils.isNotEmpty` filter: the elements of `xs` that are not "", in order. */
  function NonEmptyOnly(xs: seq<string>): (r: seq<string>)
    ensures |r| <= |xs|
    ensures forall i :: 0 <= i < |r| ==> r[i] != ""
    decreases |xs|
  {
    if xs == [] then []
    else NonEmptyOnly(xs[..|xs| - 1]) + (if xs[|xs| - 1] == "" then [] else [xs[|xs| - 1]])
  }

  /** Filtering distributes over concatenation, so the relative order of the kept
      elements is that of the input. */
  lemma {:induction false} NonEmptyOnlyAppend(a: seq<string>, b: seq<string>)
    ensures NonEmptyOnly(a + b) == NonEmptyOnly(a) + NonEmptyOnly(b)
    decreases |b|
  {
    if b == [] {
      assert a + b == a;
    } else {
      assert (a + b)[..|a + b| - 1] == a + b[..|b| - 1];
      NonEmptyOnlyAppend(a, b[..|b| - 1]);
    }
  }

  /** An element is kept if and only if it occurs in the input and is not empty. */
  lemma {:induction false} NonEmptyOnlyMembers(xs: seq<string>, x: string)
    ensures x in NonEmptyOnly(xs) <==> x in xs && x != ""
    decreases |xs|
  {
    if xs != [] {
      NonEmptyOnlyMembers(xs[..|xs| - 1], x);
      assert xs == xs[..|xs| - 1] + [xs[|xs| - 1]];
    }
  }

  /** Nothing is kept exactly when every input is empty. */
  lemma {:induction false} NonEmptyOnlyNone(xs: seq<string>)
    ensures NonEmptyOnly(xs) == [] <==> forall i :: 0 <= i < |xs| ==> xs[i] == ""
    decreases |xs|
  {
    if xs != [] {
      var init := xs[..|xs| - 1];
      NonEmptyOnlyNone(init);
      if NonEmptyOnly(xs) == [] {
        forall i | 0 <= i < |xs| ensures xs[i] == "" {
          if i < |xs| - 1 { assert xs[i] == init[i]; }
        }
      }
    }
  }

  /** `JavaWriter.stringLiteral`, reduced to wrapping in double quotes. */
  function StringLiteral(s: string): (r: string)
    ensures |r| == |s| + 2 && r[0] == '"' && r[|r| - 1] == '"' && r[1..|r| - 1] == s
  {
    "\"" + s + "\""
  }

  /** `n` copies of `s`, one after another. */
  function Repeat(s: string, n: nat): (r: string)
    ensures |r| == n * |s|
  {
    if n == 0 then "" else s + Repeat(s, n - 1)
  }

  lemma {:induction false} RepeatSnoc(s: string, n: nat)
    ensures Repeat(s, n + 1) == Repeat(s, n) + s
  {
    if n > 0 {
      RepeatSnoc(s, n - 1);
    }
  }
}
