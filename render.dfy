/**
 * Rendering a function's parameter kinds as one text column: the kinds
 * joined by commas, with no trailing comma and nothing at all for a
 * function without parameters.
 */
module Render {

  /** The kinds separated by commas. */
  function Join(xs: seq<string>): string
    decreases |xs|
  {
    if xs == [] then ""
    else if |xs| == 1 then xs[0]
    else Join(xs[..|xs| - 1]) + "," + xs[|xs| - 1]
  }

  /** Every element followed by a comma: what the rendering loop holds before its final pop_back. */
  function Terminated(xs: seq<string>): string
    decreases |xs|
  {
    if xs == [] then "" else Terminated(xs[..|xs| - 1]) + xs[|xs| - 1] + ","
  }

  lemma {:induction false} TerminatedIsJoinThenComma(xs: seq<string>)
    requires xs != []
    ensures Terminated(xs) == Join(xs) + ","
    decreases |xs|
  {
    if |xs| > 1 {
      TerminatedIsJoinThenComma(xs[..|xs| - 1]);
    }
  }

  /** The index of the last occurrence of c in s. */
  function LastIndexOf(s: string, c: char): (i: nat)
    requires c in s
    ensures i < |s| && s[i] == c && c !in s[i + 1..]
    decreases |s|
  {
    if s[|s| - 1] == c then |s| - 1
    else
      assert s == s[..|s| - 1] + [s[|s| - 1]];
      LastIndexOf(s[..|s| - 1], c)
  }

  /** Splits a string at its commas. */
  function SplitFields(s: string): (r: seq<string>)
    ensures |r| > 0
    decreases |s|
  {
    if ',' !in s then [s]
    else
      var i := LastIndexOf(s, ',');
      SplitFields(s[..i]) + [s[i + 1..]]
  }

  /** Parses the rendered column back into kinds; the empty column has none. */
  function SplitKinds(s: string): seq<string> {
    if s == "" then [] else SplitFields(s)
  }

  lemma LastCommaAfterJoin(a: string, b: string)
    requires ',' !in b
    ensures LastIndexOf(a + "," + b, ',') == |a|
  {
    var s := a + "," + b;
    assert s[|a|] == ',';
    assert s[|a| + 1..] == b;
  }

  /** Splitting a string that ends in a comma and a comma-free field peels off that field. */
  lemma SplitFieldsSnoc(a: string, b: string)
    requires ',' !in b
    ensures SplitFields(a + "," + b) == SplitFields(a) + [b]
  {
    var s := a + "," + b;
    LastCommaAfterJoin(a, b);
    assert s[..|a|] == a;
    assert s[|a| + 1..] == b;
  }

  /**
   * Rendering loses nothing: when no kind is empty or holds a comma, splitting
   * the joined column at its commas gives back the kinds in order.
   */
  lemma {:induction false} SplitJoin(xs: seq<string>)
    requires forall i :: 0 <= i < |xs| ==> xs[i] != "" && ',' !in xs[i]
    ensures SplitKinds(Join(xs)) == xs
    decreases |xs|
  {
    if |xs| > 1 {
      var front := xs[..|xs| - 1];
      SplitFieldsSnoc(Join(front), xs[|xs| - 1]);
      SplitJoin(front);
      JoinNonEmpty(front);
      assert xs == front + [xs[|xs| - 1]];
    }
  }

  lemma {:induction false} JoinNonEmpty(xs: seq<string>)
    requires xs != [] && forall i :: 0 <= i < |xs| ==> xs[i] != ""
    ensures Join(xs) != ""
    decreases |xs|
  {
    if |xs| > 1 {
      assert |Join(xs)| >= |xs[|xs| - 1]| + 1;
    }
  }

  /** The rendered column is empty only for no kinds, and ends with the last kind's last character, so never in a comma when that kind has none. */
  lemma JoinShape(xs: seq<string>)
    requires forall i :: 0 <= i < |xs| ==> xs[i] != ""
    ensures Join(xs) == "" <==> xs == []
    ensures xs != [] ==> Join(xs)[|Join(xs)| - 1] == xs[|xs| - 1][|xs[|xs| - 1]| - 1]
    ensures xs != [] && ',' !in xs[|xs| - 1] ==> Join(xs)[|Join(xs)| - 1] != ','
  {
    if xs != [] {
      JoinNonEmpty(xs);
    }
  }

  /** The rendering loop: append each kind and a comma, then drop the final comma. */
  method RenderInputs(inputs: seq<string>) returns (s: string)
    ensures s == Join(inputs)
  {
    s := "";
    for i := 0 to |inputs|
      invariant s == Terminated(inputs[..i])
    {
      assert inputs[..i + 1][..i] == inputs[..i];
      s := s + inputs[i];
      s := s + ",";
    }
    assert inputs[..|inputs|] == inputs;
    if |s| > 0 {
      TerminatedIsJoinThenComma(inputs);
      s := s[..|s| - 1];
    }
  }
}
