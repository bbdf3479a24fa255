/**
 * String helpers used by the command-line front end: the test the `unknown`
 * callback applies to each token, and `Array.prototype.join`.
 */
module Text {

  /** `arg.startsWith("-")`: false for the empty string. */
  predicate StartsWithDash(s: string)
  {
    |s| > 0 && s[0] == '-'
  }

  /** The tokens that start with `-`, in the order they were given. */
  function DashTokens(tokens: seq<string>): seq<string>
  {
    if tokens == [] then []
    else
      var last := tokens[|tokens| - 1];
      DashTokens(tokens[..|tokens| - 1]) + (if StartsWithDash(last) then [last] else [])
  }

  /** A token is kept exactly when it was given and starts with `-`. */
  lemma {:induction false} DashTokensMembers(tokens: seq<string>)
    ensures forall x :: x in DashTokens(tokens) <==> x in tokens && StartsWithDash(x)
  {
    if tokens != [] {
      var init := tokens[..|tokens| - 1];
      DashTokensMembers(init);
      assert tokens == init + [tokens[|tokens| - 1]];
    }
  }

  /** Filtering distributes over concatenation: the kept tokens keep their encounter order. */
  lemma {:induction false} DashTokensAppend(a: seq<string>, b: seq<string>)
    ensures DashTokens(a + b) == DashTokens(a) + DashTokens(b)
  {
    if b == [] {
      assert a + b == a;
    } else {
      var init := b[..|b| - 1];
      DashTokensAppend(a, init);
      assert (a + b)[..|a + b| - 1] == a + init;
      assert (a + b)[|a + b| - 1] == b[|b| - 1];
    }
  }

  /** `xs.join(sep)`: the empty list gives "", one element gives itself. */
  function Join(xs: seq<string>, sep: string): string
  {
    if |xs| == 0 then ""
    else if |xs| == 1 then xs[0]
    else xs[0] + sep + Join(xs[1..], sep)
  }

  /** Where the `k`-th element starts inside `Join(xs, sep)`. */
  function Offset(xs: seq<string>, sep: string, k: nat): nat
    requires k < |xs|
  {
    if k == 0 then 0 else |xs[0]| + |sep| + Offset(xs[1..], sep, k - 1)
  }

  /** Slicing past a prefix is slicing the rest. */
  lemma SliceAfterPrefix(p: string, t: string, i: nat, j: nat)
    requires i <= j <= |t|
    ensures (p + t)[|p| + i..|p| + j] == t[i..j]
  {
    assert forall n :: 0 <= n < j - i ==> (p + t)[|p| + i..|p| + j][n] == t[i..j][n];
  }

  /** Every element appears verbatim in the joined string, at its own offset. */
  lemma {:induction false} JoinSpans(xs: seq<string>, sep: string, k: nat)
    requires k < |xs|
    ensures Offset(xs, sep, k) + |xs[k]| <= |Join(xs, sep)|
    ensures Join(xs, sep)[Offset(xs, sep, k)..Offset(xs, sep, k) + |xs[k]|] == xs[k]
  {
    if |xs| == 1 {
      assert Join(xs, sep) == xs[0];
    } else if k == 0 {
      JoinHead(xs, sep);
    } else {
      JoinSpans(xs[1..], sep, k - 1);
      JoinTail(xs, sep, k);
    }
  }

  lemma JoinHead(xs: seq<string>, sep: string)
    requires |xs| > 1
    ensures |xs[0]| <= |Join(xs, sep)| && Join(xs, sep)[..|xs[0]|] == xs[0]
  {
    var whole := Join(xs, sep);
    assert whole == xs[0] + (sep + Join(xs[1..], sep));
  }

  lemma JoinTail(xs: seq<string>, sep: string, k: nat)
    requires 0 < k < |xs|
    requires Offset(xs[1..], sep, k - 1) + |xs[k]| <= |Join(xs[1..], sep)|
    requires Join(xs[1..], sep)[Offset(xs[1..], sep, k - 1)..Offset(xs[1..], sep, k - 1) + |xs[k]|] == xs[k]
    ensures Offset(xs, sep, k) + |xs[k]| <= |Join(xs, sep)|
    ensures Join(xs, sep)[Offset(xs, sep, k)..Offset(xs, sep, k) + |xs[k]|] == xs[k]
  {
    var head := xs[0] + sep;
    var tail := Join(xs[1..], sep);
    assert Join(xs, sep) == head + tail;
    var o := Offset(xs[1..], sep, k - 1);
    assert Offset(xs, sep, k) == |head| + o;
    SliceAfterPrefix(head, tail, o, o + |xs[k]|);
  }
}
