/** Forests given by a parent index per node; a negative parent marks a root. */
module Forest {
  import opened Prelude

  predicate Indexed(par: seq<int>) {
    forall i :: 0 <= i < |par| ==> par[i] < |par|
  }

  /** The walk from `i` to its ancestors leaves the forest within `fuel` steps. */
  predicate Ends(par: seq<int>, i: int, fuel: nat)
    requires Indexed(par) && i < |par|
    decreases fuel
  {
    i < 0 || (fuel > 0 && Ends(par, par[i], fuel - 1))
  }

  /** The nodes on that walk, starting with `i` itself. */
  function Chain(par: seq<int>, i: int, fuel: nat): (c: seq<nat>)
    requires Indexed(par) && i < |par| && Ends(par, i, fuel)
    ensures |c| <= fuel
    ensures forall k :: 0 <= k < |c| ==> c[k] < |par|
    ensures i >= 0 ==> |c| > 0 && c[0] == i
    decreases fuel
  {
    if i < 0 then [] else [i] + Chain(par, par[i], fuel - 1)
  }

  /** Every walk ends, and does so within as many steps as there are nodes. */
  ghost predicate Acyclic(par: seq<int>) {
    && Indexed(par)
    && forall i :: 0 <= i < |par| ==> Ends(par, i, |par|)
  }

  /** The ancestors of `i`, itself included. */
  function Ancestors(par: seq<int>, i: int): (c: seq<nat>)
    requires Acyclic(par) && i < |par|
    ensures forall k :: 0 <= k < |c| ==> c[k] < |par|
    ensures i >= 0 ==> |c| > 0 && c[0] == i
  {
    Chain(par, i, |par|)
  }

  /** `root` is met on the walk from `i` within `fuel` steps. */
  predicate Within(par: seq<int>, root: nat, i: int, fuel: nat)
    requires Indexed(par) && i < |par|
    decreases fuel
  {
    i >= 0 && (i == root || (fuel > 0 && Within(par, root, par[i], fuel - 1)))
  }

  lemma {:induction false} WithinIsAncestry(par: seq<int>, root: nat, i: int, f: nat)
    requires Indexed(par) && i < |par| && Ends(par, i, f)
    ensures Within(par, root, i, f) <==> root in Chain(par, i, f)
    decreases f
  {
    if i >= 0 && i != root {
      WithinIsAncestry(par, root, par[i], f - 1);
    }
  }

  lemma {:induction false} EndsMore(par: seq<int>, i: int, f: nat, g: nat)
    requires Indexed(par) && i < |par| && Ends(par, i, f) && f <= g
    ensures Ends(par, i, g) && Chain(par, i, g) == Chain(par, i, f)
    decreases f
  {
    if i >= 0 {
      EndsMore(par, par[i], f - 1, g - 1);
    }
  }

  lemma {:induction false} ChainTail(par: seq<int>, i: int, f: nat, k: nat)
    requires Indexed(par) && i < |par| && Ends(par, i, f) && k < |Chain(par, i, f)|
    ensures Ends(par, Chain(par, i, f)[k], f)
    ensures Chain(par, Chain(par, i, f)[k], f) == Chain(par, i, f)[k..]
    decreases f
  {
    if k > 0 {
      ChainTail(par, par[i], f - 1, k - 1);
      EndsMore(par, Chain(par, i, f)[k], f - 1, f);
    }
  }

  lemma {:induction false} ChainDistinct(par: seq<int>, i: int, f: nat)
    requires Indexed(par) && i < |par| && Ends(par, i, f)
    ensures forall a, b :: 0 <= a < b < |Chain(par, i, f)| ==> Chain(par, i, f)[a] != Chain(par, i, f)[b]
  {
    var c := Chain(par, i, f);
    forall a, b | 0 <= a < b < |c|
      ensures c[a] != c[b]
    {
      ChainTail(par, i, f, a);
      ChainTail(par, i, f, b);
      assert |c[a..]| != |c[b..]|;
    }
  }

  lemma {:induction false} EndsByLength(par: seq<int>, i: int, f: nat)
    requires Indexed(par) && i < |par| && Ends(par, i, f)
    ensures Ends(par, i, |Chain(par, i, f)|)
    decreases f
  {
    if i >= 0 {
      EndsByLength(par, par[i], f - 1);
    }
  }

  /** A walk that ends at all ends within as many steps as there are nodes. */
  lemma {:induction false} EndsSoon(par: seq<int>, i: int, f: nat)
    requires Indexed(par) && i < |par| && Ends(par, i, f)
    ensures Ends(par, i, |par|) && Chain(par, i, |par|) == Chain(par, i, f)
  {
    ChainDistinct(par, i, f);
    DistinctBound(Chain(par, i, f), |par|);
    EndsByLength(par, i, f);
    var k := |Chain(par, i, f)|;
    EndsMore(par, i, k, f);
    EndsMore(par, i, k, |par|);
  }

  /** A walk depends only on the parents of the nodes it visits. */
  lemma {:induction false} ChainAgrees(par: seq<int>, par': seq<int>, i: int, f: nat, c: seq<nat>)
    requires Indexed(par) && Indexed(par') && i < |par| && i < |par'| && Ends(par, i, f)
    requires c == Chain(par, i, f)
    requires forall k :: 0 <= k < |c| ==> c[k] < |par'| && par'[c[k]] == par[c[k]]
    ensures Ends(par', i, f) && Chain(par', i, f) == c
    decreases f
  {
    if i >= 0 {
      assert c[0] == i;
      ChainAgrees(par, par', par[i], f - 1, c[1..]);
    }
  }

  lemma AncestorsStep(par: seq<int>, i: nat)
    requires Acyclic(par) && i < |par|
    ensures Ancestors(par, i) == [i] + Ancestors(par, par[i])
    ensures i !in Ancestors(par, par[i])
  {
    var n := |par|;
    assert Ends(par, i, n);
    EndsMore(par, par[i], n - 1, n);
    ChainDistinct(par, i, n);
    var c := Chain(par, i, n);
    assert forall k :: 0 <= k < |c| - 1 ==> Ancestors(par, par[i])[k] == c[k + 1];
  }

  /** Nodes that are not under the moved node keep their ancestors. */
  lemma {:induction false} MovedOthers(par: seq<int>, node: nat, up: int, i: int)
    requires Acyclic(par) && node < |par| && up < |par| && i < |par|
    requires node !in Ancestors(par, i)
    ensures Ends(par[node := up], i, |par|) && Chain(par[node := up], i, |par|) == Ancestors(par, i)
  {
    ChainAgrees(par, par[node := up], i, |par|, Ancestors(par, i));
  }

  lemma {:induction false} MovedEnds(par: seq<int>, node: nat, up: int, i: int, f: nat)
    requires Acyclic(par) && node < |par| && up < |par| && i < |par| && Ends(par, i, f)
    requires node !in Ancestors(par, up)
    ensures Ends(par[node := up], i, f + |par| + 1)
    decreases f
  {
    var moved := par[node := up];
    if i == node {
      MovedOthers(par, node, up, up);
      EndsMore(moved, up, |par|, f + |par|);
    } else if i >= 0 {
      MovedEnds(par, node, up, par[i], f - 1);
    }
  }

  /** Re-parenting keeps the forest exactly when the new parent is not under the moved node. */
  lemma MoveAcyclic(par: seq<int>, node: nat, up: int)
    requires Acyclic(par) && node < |par| && up < |par|
    ensures Acyclic(par[node := up]) <==> node !in Ancestors(par, up)
  {
    var moved := par[node := up];
    if node !in Ancestors(par, up) {
      forall i | 0 <= i < |par|
        ensures Ends(moved, i, |par|)
      {
        MovedEnds(par, node, up, i, |par|);
        EndsSoon(moved, i, |par| + |par| + 1);
      }
    } else if Acyclic(moved) {
      StillUnder(par, moved, node, up, |par|);
      AncestorsStep(moved, node);
    }
  }

  /** Changing the parent of `node` alone does not cut the walk from `i` before it reaches `node`. */
  lemma {:induction false} StillUnder(par: seq<int>, moved: seq<int>, node: nat, i: int, f: nat)
    requires Acyclic(par) && Acyclic(moved) && |moved| == |par| && node < |par| && i < |par|
    requires forall j :: 0 <= j < |par| && j != node ==> moved[j] == par[j]
    requires Ends(par, i, f) && node in Chain(par, i, f)
    ensures node in Ancestors(moved, i)
    decreases f
  {
    if i != node {
      StillUnder(par, moved, node, par[i], f - 1);
      AncestorsStep(moved, i);
    }
  }

  /** A new root, or a node cut loose, leaves a forest. */
  lemma GrowAcyclic(par: seq<int>)
    requires Acyclic(par)
    ensures Acyclic(par + [-1])
  {
    var grown := par + [-1];
    forall i | 0 <= i < |grown|
      ensures Ends(grown, i, |grown|)
    {
      if i < |par| {
        ChainAgrees(par, grown, i, |par|, Ancestors(par, i));
        EndsMore(grown, i, |par|, |grown|);
      }
    }
  }
}
