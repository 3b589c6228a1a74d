/**
 * The three shapes of loop the diagnostic parsers run over the lines of a
 * tool's output, each as a specification with the lemmas that say what it
 * computes:
 *  - FilterMap: append a row for every line that yields one (records, hops, connections);
 *  - LastMatch: overwrite a variable on every line that yields a value, so the last one wins;
 *  - FirstMatch: take the value of the first line that yields one and stop.
 */
module LineScans {
  import opened Wrappers

  function Keep<B>(o: Option<B>): seq<B> {
    if o.Some? then [o.value] else []
  }

  /** The rows an append loop collects: `f(x)` for each `x` where it is `Some`, in order. */
  function FilterMap<A, B>(xs: seq<A>, f: A -> Option<B>): (rows: seq<B>)
    ensures |rows| <= |xs|
    decreases |xs|
  {
    if xs == [] then [] else FilterMap(xs[..|xs| - 1], f) + Keep(f(xs[|xs| - 1]))
  }

  /** One more step of an append loop: the next input adds its row, if it yields one. */
  lemma FilterMapStep<A, B>(xs: seq<A>, i: nat, f: A -> Option<B>)
    requires i < |xs|
    ensures FilterMap(xs[..i + 1], f) == FilterMap(xs[..i], f) + Keep(f(xs[i]))
  {
    assert xs[..i + 1][..i] == xs[..i];
  }

  /**
   * `idx` lists, in increasing order, the positions of `xs` that produced
   * the rows `rows`, and every position that yields a row is among them.
   */
  ghost predicate Picks<A, B>(xs: seq<A>, f: A -> Option<B>, rows: seq<B>, idx: seq<nat>) {
    && |idx| == |rows|
    && (forall k :: 0 <= k < |idx| ==> idx[k] < |xs| && f(xs[idx[k]]) == Some(rows[k]))
    && (forall k, l :: 0 <= k < l < |idx| ==> idx[k] < idx[l])
    && (forall i :: 0 <= i < |xs| && f(xs[i]).Some? ==> i in idx)
  }

  /** The rows are exactly the values of the productive inputs, one each, in input order. */
  lemma {:induction false} FilterMapPicks<A, B>(xs: seq<A>, f: A -> Option<B>) returns (idx: seq<nat>)
    ensures Picks(xs, f, FilterMap(xs, f), idx)
    decreases |xs|
  {
    if xs == [] {
      return [];
    }
    var n := |xs| - 1;
    var init := xs[..n];
    var rows0 := FilterMap(init, f);
    var idx0 := FilterMapPicks(init, f);
    var rows := FilterMap(xs, f);
    assert rows == rows0 + Keep(f(xs[n]));
    if f(xs[n]).Some? {
      idx := idx0 + [n];
      forall k | 0 <= k < |idx|
        ensures idx[k] < |xs| && f(xs[idx[k]]) == Some(rows[k])
      {
        if k < |idx0| {
          assert init[idx0[k]] == xs[idx0[k]];
        }
      }
      forall i | 0 <= i < |xs| && f(xs[i]).Some?
        ensures i in idx
      {
        if i < n {
          assert init[i] == xs[i];
          assert i in idx0;
        }
      }
    } else {
      idx := idx0;
      forall k | 0 <= k < |idx|
        ensures idx[k] < |xs| && f(xs[idx[k]]) == Some(rows[k])
      {
        assert init[idx0[k]] == xs[idx0[k]];
      }
      forall i | 0 <= i < |xs| && f(xs[i]).Some?
        ensures i in idx
      {
        assert init[i] == xs[i];
      }
    }
  }

  /**
   * The first `n` picks cover the first `n` rows; a productive input left out
   * of them comes after the last one kept.
   */
  lemma PicksPrefix<A, B>(xs: seq<A>, f: A -> Option<B>, rows: seq<B>, idx: seq<nat>, n: nat)
    requires Picks(xs, f, rows, idx) && n <= |idx|
    ensures forall k :: 0 <= k < n ==> idx[k] < |xs| && f(xs[idx[k]]) == Some(rows[k])
    ensures forall k, l :: 0 <= k < l < n ==> idx[k] < idx[l]
    ensures forall i :: 0 <= i < |xs| && f(xs[i]).Some? ==>
      i in idx[..n] || (n < |idx| && (n == 0 || idx[n - 1] < i))
  {
    forall i | 0 <= i < |xs| && f(xs[i]).Some?
      ensures i in idx[..n] || (n < |idx| && (n == 0 || idx[n - 1] < i))
    {
      var p :| 0 <= p < |idx| && idx[p] == i;
      if p < n {
        assert idx[..n][p] == i;
      }
    }
  }

  /** `f` only ever keeps or drops its input: a filter in the strict sense. */
  ghost predicate Selects<A(!new)>(f: A -> Option<A>) {
    forall x :: f(x).Some? ==> f(x).value == x
  }

  /** A selecting filter keeps exactly the inputs it accepts. */
  lemma FilterMapSelected<A(!new)>(xs: seq<A>, f: A -> Option<A>)
    requires Selects(f)
    ensures forall x :: x in FilterMap(xs, f) <==> x in xs && f(x).Some?
  {
    var rows := FilterMap(xs, f);
    var idx := FilterMapPicks(xs, f);
    forall x
      ensures x in rows <==> x in xs && f(x).Some?
    {
      if x in rows {
        var k :| 0 <= k < |rows| && rows[k] == x;
        assert f(xs[idx[k]]) == Some(x);
      }
      if x in xs && f(x).Some? {
        var i :| 0 <= i < |xs| && xs[i] == x;
        assert i in idx;
        var k :| 0 <= k < |idx| && idx[k] == i;
        assert rows[k] == x;
      }
    }
  }

  /** A selecting filter over distinct inputs yields distinct rows. */
  lemma FilterMapDistinct<A(!new)>(xs: seq<A>, f: A -> Option<A>)
    requires Selects(f)
    requires forall k, l :: 0 <= k < l < |xs| ==> xs[k] != xs[l]
    ensures var rows := FilterMap(xs, f); forall k, l :: 0 <= k < l < |rows| ==> rows[k] != rows[l]
  {
    var rows := FilterMap(xs, f);
    var idx := FilterMapPicks(xs, f);
    forall k, l | 0 <= k < l < |rows|
      ensures rows[k] != rows[l]
    {
      assert f(xs[idx[k]]) == Some(rows[k]);
      assert f(xs[idx[l]]) == Some(rows[l]);
    }
  }

  /** No productive input, no rows. */
  lemma {:induction false} FilterMapNone<A, B>(xs: seq<A>, f: A -> Option<B>)
    requires forall i :: 0 <= i < |xs| ==> f(xs[i]).None?
    ensures FilterMap(xs, f) == []
    decreases |xs|
  {
    if xs != [] {
      var init := xs[..|xs| - 1];
      assert forall i :: 0 <= i < |init| ==> init[i] == xs[i];
      FilterMapNone(init, f);
    }
  }

  /** When every input yields exactly one of two rows, the two row lists share out the inputs. */
  lemma {:induction false} FilterMapComplement<A, B, C>(xs: seq<A>, f: A -> Option<B>, g: A -> Option<C>)
    requires forall i :: 0 <= i < |xs| ==> (f(xs[i]).Some? <==> g(xs[i]).None?)
    ensures |FilterMap(xs, f)| + |FilterMap(xs, g)| == |xs|
    decreases |xs|
  {
    if xs != [] {
      var init := xs[..|xs| - 1];
      assert forall i :: 0 <= i < |init| ==> init[i] == xs[i];
      FilterMapComplement(init, f, g);
    }
  }

  /** The value left by a loop that overwrites it on every productive input. */
  function LastMatch<A, B>(xs: seq<A>, f: A -> Option<B>): Option<B>
    decreases |xs|
  {
    if xs == [] then None
    else
      match f(xs[|xs| - 1])
      case Some(v) => Some(v)
      case None => LastMatch(xs[..|xs| - 1], f)
  }

  /** Later inputs override earlier ones; earlier ones only show through when later ones are silent. */
  lemma {:induction false} LastMatchAppend<A, B>(xs: seq<A>, ys: seq<A>, f: A -> Option<B>)
    ensures LastMatch(xs + ys, f) == if LastMatch(ys, f).Some? then LastMatch(ys, f) else LastMatch(xs, f)
    decreases |ys|
  {
    if ys != [] {
      var zs := xs + ys;
      assert zs[..|zs| - 1] == xs + ys[..|ys| - 1];
      assert zs[|zs| - 1] == ys[|ys| - 1];
      LastMatchAppend(xs, ys[..|ys| - 1], f);
    } else {
      assert xs + ys == xs;
    }
  }

  /** One more step of an overwriting loop: the next input wins when it yields a value. */
  lemma LastMatchStep<A, B>(xs: seq<A>, i: nat, f: A -> Option<B>)
    requires i < |xs|
    ensures LastMatch(xs[..i + 1], f) == if f(xs[i]).Some? then f(xs[i]) else LastMatch(xs[..i], f)
  {
    assert xs[..i + 1][..i] == xs[..i];
  }

  /** The value is that of the last productive input, and there is none exactly when no input is productive. */
  lemma LastMatchIsLast<A, B>(xs: seq<A>, f: A -> Option<B>)
    ensures LastMatch(xs, f).None? <==> forall i :: 0 <= i < |xs| ==> f(xs[i]).None?
    ensures LastMatch(xs, f).Some? ==>
      exists i :: 0 <= i < |xs| && f(xs[i]) == LastMatch(xs, f) && forall j :: i < j < |xs| ==> f(xs[j]).None?
  {
    LastMatchNone(xs, f);
    if LastMatch(xs, f).Some? {
      var i := LastMatchWitness(xs, f);
    }
  }

  lemma {:induction false} LastMatchNone<A, B>(xs: seq<A>, f: A -> Option<B>)
    ensures LastMatch(xs, f).None? <==> forall i :: 0 <= i < |xs| ==> f(xs[i]).None?
    decreases |xs|
  {
    if xs != [] {
      var init := xs[..|xs| - 1];
      assert forall i :: 0 <= i < |init| ==> init[i] == xs[i];
      LastMatchNone(init, f);
    }
  }

  /** The position of the input whose value a loop that overwrites on every productive input ends with. */
  lemma {:induction false} LastMatchWitness<A, B>(xs: seq<A>, f: A -> Option<B>) returns (i: nat)
    requires LastMatch(xs, f).Some?
    ensures i < |xs| && f(xs[i]) == LastMatch(xs, f) && forall j :: i < j < |xs| ==> f(xs[j]).None?
    decreases |xs|
  {
    var n := |xs| - 1;
    if f(xs[n]).Some? {
      i := n;
    } else {
      var init := xs[..n];
      i := LastMatchWitness(init, f);
      assert init[i] == xs[i];
    }
  }

  /** The value taken by a loop that stops at the first productive input. */
  function FirstMatch<A, B>(xs: seq<A>, f: A -> Option<B>): Option<B>
    decreases |xs|
  {
    if xs == [] then None
    else if f(xs[0]).Some? then f(xs[0])
    else FirstMatch(xs[1..], f)
  }

  /** Once an input is productive, nothing after it is consulted. */
  lemma {:induction false} FirstMatchAppend<A, B>(xs: seq<A>, ys: seq<A>, f: A -> Option<B>)
    ensures FirstMatch(xs + ys, f) == if FirstMatch(xs, f).Some? then FirstMatch(xs, f) else FirstMatch(ys, f)
    decreases |xs|
  {
    if xs != [] {
      assert (xs + ys)[1..] == xs[1..] + ys;
      FirstMatchAppend(xs[1..], ys, f);
    } else {
      assert xs + ys == ys;
    }
  }

  /** The value is that of the first productive input, and there is none exactly when no input is productive. */
  lemma {:induction false} FirstMatchIsFirst<A, B>(xs: seq<A>, f: A -> Option<B>)
    ensures FirstMatch(xs, f).None? <==> forall i :: 0 <= i < |xs| ==> f(xs[i]).None?
    ensures FirstMatch(xs, f).Some? ==>
      exists i :: 0 <= i < |xs| && f(xs[i]) == FirstMatch(xs, f) && forall j :: 0 <= j < i ==> f(xs[j]).None?
    decreases |xs|
  {
    if xs != [] {
      var tail := xs[1..];
      assert forall i :: 0 <= i < |tail| ==> tail[i] == xs[i + 1];
      FirstMatchIsFirst(tail, f);
      if f(xs[0]).Some? {
        assert f(xs[0]) == FirstMatch(xs, f);
      } else if FirstMatch(tail, f).Some? {
        var i :| 0 <= i < |tail| && f(tail[i]) == FirstMatch(tail, f) && forall j :: 0 <= j < i ==> f(tail[j]).None?;
        assert f(xs[i + 1]) == FirstMatch(xs, f);
      }
      if forall i :: 0 <= i < |xs| ==> f(xs[i]).None? {
        assert forall i :: 0 <= i < |tail| ==> f(tail[i]).None?;
      }
    }
  }
}
