/** Order-preserving filtering of the whitespace-separated tokens that a
    library-config tool prints: the tokens that carry a given prefix (with the
    prefix stripped) and the tokens that do not (unchanged). Both are defined
    by recursion on the last token, the order in which the build script's loops
    append their results, and are characterised by the lemmas below through
    the positions of the tokens they keep. */
module TokenFilter {

  /** Python's `str.startswith` for a literal prefix. */
  predicate StartsWith(t: string, p: string) {
    |p| <= |t| && t[..|p|] == p
  }

  /** The tokens of `ts` that start with `p`, in order, each with `p` removed. */
  function Selected(ts: seq<string>, p: string): seq<string> {
    if ts == [] then []
    else
      var last := ts[|ts| - 1];
      Selected(ts[..|ts| - 1], p) + (if StartsWith(last, p) then [last[|p|..]] else [])
  }

  /** The tokens of `ts` that do not start with `p`, in order, unchanged. */
  function Unselected(ts: seq<string>, p: string): seq<string> {
    if ts == [] then []
    else
      var last := ts[|ts| - 1];
      Unselected(ts[..|ts| - 1], p) + (if StartsWith(last, p) then [] else [last])
  }

  /** The positions in `ts` of the tokens for which `StartsWith(_, p) == want`,
      in increasing order. */
  function Indices(ts: seq<string>, p: string, want: bool): seq<nat> {
    if ts == [] then []
    else
      Indices(ts[..|ts| - 1], p, want) + (if StartsWith(ts[|ts| - 1], p) == want then [|ts| - 1] else [])
  }

  /** `Indices` lists exactly the positions of the matching tokens, each once,
      in strictly increasing order. */
  lemma {:induction false} IndicesExact(ts: seq<string>, p: string, want: bool)
    ensures forall k :: 0 <= k < |Indices(ts, p, want)| ==> Indices(ts, p, want)[k] < |ts|
    ensures forall j, k :: 0 <= j < k < |Indices(ts, p, want)| ==>
              Indices(ts, p, want)[j] < Indices(ts, p, want)[k]
    ensures forall i :: 0 <= i < |ts| ==> (i in Indices(ts, p, want) <==> StartsWith(ts[i], p) == want)
  {
    if ts != [] {
      var init := ts[..|ts| - 1];
      IndicesExact(init, p, want);
      assert forall i :: 0 <= i < |init| ==> init[i] == ts[i];
    }
  }

  /** The k-th selected entry comes from the k-th token that starts with `p`:
      that token is `p` followed by the entry, so only the prefix is removed. */
  lemma {:induction false} SelectedAt(ts: seq<string>, p: string)
    ensures |Selected(ts, p)| == |Indices(ts, p, true)|
    ensures forall k :: 0 <= k < |Selected(ts, p)| ==>
              Indices(ts, p, true)[k] < |ts| && p + Selected(ts, p)[k] == ts[Indices(ts, p, true)[k]]
  {
    if ts != [] {
      var init, last := ts[..|ts| - 1], ts[|ts| - 1];
      SelectedAt(init, p);
      IndicesExact(init, p, true);
      if StartsWith(last, p) {
        assert p + last[|p|..] == last;
      }
    }
  }

  /** The k-th unselected entry is the k-th token that does not start with `p`. */
  lemma {:induction false} UnselectedAt(ts: seq<string>, p: string)
    ensures |Unselected(ts, p)| == |Indices(ts, p, false)|
    ensures forall k :: 0 <= k < |Unselected(ts, p)| ==>
              Indices(ts, p, false)[k] < |ts| && Unselected(ts, p)[k] == ts[Indices(ts, p, false)[k]]
  {
    if ts != [] {
      UnselectedAt(ts[..|ts| - 1], p);
      IndicesExact(ts[..|ts| - 1], p, false);
    }
  }

  /** Every token contributes to exactly one of the two lists. */
  lemma {:induction false} Partition(ts: seq<string>, p: string)
    ensures |Selected(ts, p)| + |Unselected(ts, p)| == |ts|
    ensures forall i :: 0 <= i < |ts| ==> (i in Indices(ts, p, true) <==> i !in Indices(ts, p, false))
  {
    if ts != [] {
      Partition(ts[..|ts| - 1], p);
    }
    IndicesExact(ts, p, true);
    IndicesExact(ts, p, false);
  }

  /** Filtering a concatenation filters each part: output order follows input order. */
  lemma {:induction false} SelectedConcat(a: seq<string>, b: seq<string>, p: string)
    ensures Selected(a + b, p) == Selected(a, p) + Selected(b, p)
    ensures Unselected(a + b, p) == Unselected(a, p) + Unselected(b, p)
  {
    if b == [] {
      assert a + b == a;
    } else {
      var b' := b[..|b| - 1];
      assert (a + b)[..|a + b| - 1] == a + b';
      SelectedConcat(a, b', p);
    }
  }

  /** A directory is selected exactly when some token is `p` followed by it. */
  lemma {:induction false} SelectedMembers(ts: seq<string>, p: string, d: string)
    ensures d in Selected(ts, p) <==> exists t :: t in ts && StartsWith(t, p) && t[|p|..] == d
  {
    if ts != [] {
      var init, last := ts[..|ts| - 1], ts[|ts| - 1];
      SelectedMembers(init, p, d);
      assert ts == init + [last];
      if d in Selected(ts, p) && d !in Selected(init, p) {
        assert last in ts;
      }
    }
  }

  /** A token is kept unchanged exactly when it occurs and lacks the prefix. */
  lemma {:induction false} UnselectedMembers(ts: seq<string>, p: string, t: string)
    ensures t in Unselected(ts, p) <==> t in ts && !StartsWith(t, p)
  {
    if ts != [] {
      var init, last := ts[..|ts| - 1], ts[|ts| - 1];
      UnselectedMembers(init, p, t);
      assert ts == init + [last];
    }
  }
}
