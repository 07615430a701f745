/** Dominators and post-dominators of the block graph, computed as fixpoints and proved to be the path notions. */
module Dominators {
  /** Neighbour lists by block index. An index out of range stands for an identifier that names no block. */
  type Neighbours = seq<seq<nat>>

  // ---- one theory for both directions ----

  /** p starts at i, ends at a seed, and every step goes to a listed neighbour. */
  ghost predicate Walk(adj: Neighbours, seeds: set<nat>, p: seq<nat>, i: nat) {
    && p != [] && p[0] == i
    && (forall k :: 0 <= k < |p| ==> p[k] < |adj|)
    && (forall k :: 0 <= k < |p| - 1 ==> p[k + 1] in adj[p[k]])
    && p[|p| - 1] in seeds
  }

  /** v lies on every walk from i to a seed. */
  ghost predicate OnEveryWalk(adj: Neighbours, seeds: set<nat>, i: nat, v: nat) {
    forall p :: Walk(adj, seeds, p, i) ==> v in p
  }

  ghost predicate Reaches(adj: Neighbours, seeds: set<nat>, i: nat) {
    exists p :: Walk(adj, seeds, p, i)
  }

  /** All block indices below n. */
  function Universe(n: nat): (s: set<nat>)
    ensures forall v: nat :: v in s <==> v < n
  {
    if n == 0 then {} else Universe(n - 1) + {n - 1}
  }

  /** The neighbours that exist. */
  function Known(adj: Neighbours, i: nat): (r: seq<nat>)
    requires i < |adj|
    ensures forall v :: v in r <==> v in adj[i] && v < |adj|
    ensures forall k :: 0 <= k < |r| ==> r[k] < |adj|
  {
    Filtered(adj[i], |adj|)
  }

  function Filtered(s: seq<nat>, n: nat): (r: seq<nat>)
    ensures forall v :: v in r <==> v in s && v < n
    ensures forall k :: 0 <= k < |r| ==> r[k] < n
  {
    if s == [] then []
    else if s[0] < n then [s[0]] + Filtered(s[1..], n) else Filtered(s[1..], n)
  }

  /** What one update of block i computes: itself and whatever all known neighbours share. */
  ghost function Met(adj: Neighbours, sets: seq<set<nat>>, i: nat): set<nat>
    requires i < |adj| == |sets|
  {
    {i} + set v | v in Universe(|adj|) && forall q <- Known(adj, i) :: v in sets[q]
  }

  /** Blocks an update may change. */
  predicate Updatable(adj: Neighbours, seeds: set<nat>, i: nat) {
    i < |adj| && i !in seeds && Known(adj, i) != []
  }

  /** The state between updates: seeds fixed, nothing on every walk lost, and every update only shrinks. */
  ghost predicate Descending(adj: Neighbours, seeds: set<nat>, sets: seq<set<nat>>) {
    && |sets| == |adj|
    && (forall i :: 0 <= i < |adj| ==> sets[i] <= Universe(|adj|))
    && (forall i :: 0 <= i < |adj| && i in seeds ==> sets[i] == {i})
    && (forall i :: 0 <= i < |adj| && i !in seeds && !Updatable(adj, seeds, i) ==> sets[i] == Universe(|adj|))
    && (forall i :: 0 <= i < |adj| && Updatable(adj, seeds, i) ==> Met(adj, sets, i) <= sets[i])
    && (forall i: nat, v: nat :: i < |adj| && v < |adj| && OnEveryWalk(adj, seeds, i, v) ==> v in sets[i])
  }

  ghost predicate Stable(adj: Neighbours, seeds: set<nat>, sets: seq<set<nat>>)
    requires |sets| == |adj|
  {
    forall i :: 0 <= i < |adj| && Updatable(adj, seeds, i) ==> sets[i] == Met(adj, sets, i)
  }

  lemma WalkTail(adj: Neighbours, seeds: set<nat>, p: seq<nat>, i: nat)
    requires Walk(adj, seeds, p, i) && |p| > 1
    ensures p[1] in Known(adj, i) && Walk(adj, seeds, p[1..], p[1])
  {
    assert p[1] in adj[p[0]];
  }

  lemma WalkExtend(adj: Neighbours, seeds: set<nat>, p: seq<nat>, i: nat, q: nat)
    requires i < |adj| && q in Known(adj, i) && Walk(adj, seeds, p, q)
    ensures Walk(adj, seeds, [i] + p, i)
  {
  }

  /** What lies on every walk from i is i itself or lies on every walk from each neighbour. */
  lemma OnWalksOfNeighbours(adj: Neighbours, seeds: set<nat>, i: nat, v: nat, q: nat)
    requires i < |adj| && OnEveryWalk(adj, seeds, i, v) && v != i && q in Known(adj, i)
    ensures OnEveryWalk(adj, seeds, q, v)
  {
    forall p | Walk(adj, seeds, p, q)
      ensures v in p
    {
      WalkExtend(adj, seeds, p, i, q);
      assert v in [i] + p;
    }
  }

  /** Updating one block keeps the descent going. */
  lemma UpdateDescends(adj: Neighbours, seeds: set<nat>, sets: seq<set<nat>>, i: nat)
    requires Descending(adj, seeds, sets) && Updatable(adj, seeds, i)
    ensures Descending(adj, seeds, sets[i := Met(adj, sets, i)])
  {
    var next := sets[i := Met(adj, sets, i)];
    forall j | 0 <= j < |adj| && Updatable(adj, seeds, j)
      ensures Met(adj, next, j) <= next[j]
    {
      assert Met(adj, next, j) <= Met(adj, sets, j);
    }
    forall j: nat, v: nat | j < |adj| && v < |adj| && OnEveryWalk(adj, seeds, j, v)
      ensures v in next[j]
    {
      if j == i && v != i {
        forall q <- Known(adj, i) ensures v in sets[q] {
          OnWalksOfNeighbours(adj, seeds, i, v, q);
        }
      }
    }
  }

  lemma SeedOnItsWalks(adj: Neighbours, seeds: set<nat>, i: nat, v: nat)
    requires i < |adj| && i in seeds && OnEveryWalk(adj, seeds, i, v)
    ensures v == i
  {
    assert Walk(adj, seeds, [i], i);
  }

  /** Everything, except single seeds: where both fixpoints start. */
  ghost predicate Initial(adj: Neighbours, seeds: set<nat>, sets: seq<set<nat>>) {
    && |sets| == |adj|
    && forall i :: 0 <= i < |adj| ==> sets[i] == if i in seeds then {i} else Universe(|adj|)
  }

  lemma InitialDescends(adj: Neighbours, seeds: set<nat>, sets: seq<set<nat>>)
    requires Initial(adj, seeds, sets)
    ensures Descending(adj, seeds, sets)
  {
    forall i: nat, v: nat | i < |adj| && v < |adj| && OnEveryWalk(adj, seeds, i, v)
      ensures v in sets[i]
    {
      if i in seeds {
        SeedOnItsWalks(adj, seeds, i, v);
      }
    }
  }

  /** At a fixpoint a member of i's set meets every walk from i. */
  lemma {:induction false} MembersOnWalk(adj: Neighbours, seeds: set<nat>, sets: seq<set<nat>>,
                                         i: nat, v: nat, p: seq<nat>)
    requires Descending(adj, seeds, sets) && Stable(adj, seeds, sets)
    requires i < |adj| && v in sets[i] && Walk(adj, seeds, p, i)
    ensures v in p
    decreases |p|
  {
    if i !in seeds && v != i {
      assert |p| > 1;
      WalkTail(adj, seeds, p, i);
      assert Updatable(adj, seeds, i);
      MembersOnWalk(adj, seeds, sets, p[1], v, p[1..]);
    }
  }

  /** The fixpoint reached from the top is exactly the path notion. */
  lemma StableIsMeaning(adj: Neighbours, seeds: set<nat>, sets: seq<set<nat>>)
    requires Descending(adj, seeds, sets) && Stable(adj, seeds, sets)
    ensures forall i, v :: 0 <= i < |adj| && 0 <= v < |adj| ==> (v in sets[i] <==> OnEveryWalk(adj, seeds, i, v))
  {
    forall i, v | 0 <= i < |adj| && 0 <= v < |adj| && v in sets[i]
      ensures OnEveryWalk(adj, seeds, i, v)
    {
      forall p | Walk(adj, seeds, p, i) ensures v in p {
        MembersOnWalk(adj, seeds, sets, i, v, p);
      }
    }
  }

  /** All (block, member) pairs: what shrinks while the loops run. */
  ghost function Pairs(sets: seq<set<nat>>): set<(nat, nat)> {
    set i: nat, v | 0 <= i < |sets| && v in sets[i] :: (i, v)
  }

  lemma ShrinkPairs(sets: seq<set<nat>>, i: nat, smaller: set<nat>)
    requires i < |sets| && smaller < sets[i]
    ensures Pairs(sets[i := smaller]) < Pairs(sets)
  {
    var next := sets[i := smaller];
    assert Pairs(next) <= Pairs(sets);
    var v :| v in sets[i] && v !in smaller;
    assert (i, v) in Pairs(sets) && (i, v) !in Pairs(next);
  }

  /** Intersecting the sets of listed neighbours, one after another, starting from `base`. */
  method Intersection(base: set<nat>, picked: seq<nat>, sets: seq<set<nat>>) returns (r: set<nat>)
    requires forall k :: 0 <= k < |picked| ==> picked[k] < |sets|
    ensures forall v :: v in r <==> v in base && forall k :: 0 <= k < |picked| ==> v in sets[picked[k]]
  {
    r := base;
    for j := 0 to |picked|
      invariant forall v :: v in r <==> v in base && forall k :: 0 <= k < j ==> v in sets[picked[k]]
    {
      r := r * sets[picked[j]];
    }
  }

  /** Intersecting the universe, or the first neighbour's set, with all neighbours and adding i: the update. */
  lemma IntersectionMeets(adj: Neighbours, sets: seq<set<nat>>, i: nat, r: set<nat>)
    requires i < |adj| == |sets| && (forall j :: 0 <= j < |adj| ==> sets[j] <= Universe(|adj|))
    requires forall v ::
               v in r <==> v in Universe(|adj|) && forall k :: 0 <= k < |Known(adj, i)| ==> v in sets[Known(adj, i)[k]]
    ensures r + {i} == Met(adj, sets, i)
  {
    var known := Known(adj, i);
    forall v | v in r ensures forall q <- known :: v in sets[q] {
    }
    forall v | v in Met(adj, sets, i) && v != i ensures v in r {
      forall k | 0 <= k < |known| ensures v in sets[known[k]] {
        assert known[k] in known;
      }
    }
  }

  lemma DescendingBounds(adj: Neighbours, seeds: set<nat>, sets: seq<set<nat>>)
    requires Descending(adj, seeds, sets)
    ensures |sets| == |adj|
    ensures forall i :: 0 <= i < |adj| ==> sets[i] <= Universe(|adj|)
    ensures forall i :: 0 <= i < |adj| && Updatable(adj, seeds, i) ==> Met(adj, sets, i) <= sets[i]
  {
  }

  lemma StoreDescends(adj: Neighbours, seeds: set<nat>, sets: seq<set<nat>>, i: nat)
    requires Descending(adj, seeds, sets) && Updatable(adj, seeds, i) && Met(adj, sets, i) != sets[i]
    ensures Descending(adj, seeds, sets[i := Met(adj, sets, i)])
    ensures Pairs(sets[i := Met(adj, sets, i)]) < Pairs(sets)
  {
    UpdateDescends(adj, seeds, sets, i);
    ShrinkPairs(sets, i, Met(adj, sets, i));
  }

  /** The sets of blocks that dominate each block, with block 0 as entry: v is in dom[i] exactly when every path
      from block 0 to i passes through v. */
  method ComputeDominators(preds: Neighbours) returns (dom: seq<set<nat>>)
    ensures Meaning(preds, {0}, dom)
    ensures forall i, v :: 0 <= i < |preds| && 0 <= v < |preds| ==>
              (v in dom[i] <==> forall p :: Path(preds, p, i) ==> v in p)
  {
    hide Met, Pairs, Descending, OnEveryWalk, Path;
    var n := |preds|;
    var all := Universe(n);
    dom := seq(n, i => if i == 0 then {0} else all);
    InitialDescends(preds, {0}, dom);
    var changed := true;
    while changed
      invariant Descending(preds, {0}, dom)
      invariant |dom| == n && (!changed ==> Stable(preds, {0}, dom))
      decreases Pairs(dom), changed
    {
      changed := false;
      ghost var start := dom;
      var i := 1;
      while i < n
        invariant 1 <= i && Descending(preds, {0}, dom) && |dom| == n
        invariant if changed then Pairs(dom) < Pairs(start) else dom == start
        invariant !changed ==> forall j :: 0 <= j < i && Updatable(preds, {0}, j) ==> dom[j] == Met(preds, dom, j)
      {
        DescendingBounds(preds, {0}, dom);
        var predecessors := Known(preds, i);
        if predecessors != [] {
          var newSet := Intersection(all, predecessors, dom);
          IntersectionMeets(preds, dom, i, newSet);
          newSet := newSet + {i};
          if newSet != dom[i] {
            StoreDescends(preds, {0}, dom, i);
            dom := dom[i := newSet];
            changed := true;
          }
        }
        i := i + 1;
      }
    }
    DescendingBounds(preds, {0}, dom);
    StableIsMeaning(preds, {0}, dom);
    forall i: nat, v: nat | i < |preds| && v < |preds| {
      DominanceByPaths(preds, i, v);
    }
  }

  function ExitBlocks(succs: Neighbours): (s: set<nat>)
    ensures forall i :: 0 <= i < |succs| ==> (i in s <==> succs[i] == [])
    ensures forall i <- s :: i < |succs|
  {
    set i | 0 <= i < |succs| && succs[i] == []
  }

  /** The sets of blocks that post-dominate each block: v is in pdom[i] exactly when every path from i to any exit
      passes through v. Several exits, closed cycles and unknown successors are all allowed. */
  method ComputePostDominators(succs: Neighbours) returns (pdom: seq<set<nat>>)
    ensures Meaning(succs, ExitBlocks(succs), pdom)
  {
    hide Met, Pairs, Descending, OnEveryWalk;
    var n := |succs|;
    var all := Universe(n);
    var exits := ExitBlocks(succs);
    pdom := seq(n, i requires 0 <= i < n => if i in exits then {i} else all);
    InitialDescends(succs, exits, pdom);
    var changed := true;
    while changed
      invariant Descending(succs, exits, pdom)
      invariant |pdom| == n && (!changed ==> Stable(succs, exits, pdom))
      decreases Pairs(pdom), changed
    {
      changed := false;
      ghost var start := pdom;
      var i := n;
      while i > 0
        invariant 0 <= i <= n && Descending(succs, exits, pdom) && |pdom| == n
        invariant if changed then Pairs(pdom) < Pairs(start) else pdom == start
        invariant !changed ==> forall j :: i <= j < n && Updatable(succs, exits, j) ==> pdom[j] == Met(succs, pdom, j)
      {
        i := i - 1;
        DescendingBounds(succs, exits, pdom);
        var successors := Known(succs, i);
        if i !in exits && successors != [] {
          var intersection := Intersection(pdom[successors[0]], successors[1..], pdom);
          HeadIntersection(successors, pdom, all, intersection);
          IntersectionMeets(succs, pdom, i, intersection);
          intersection := intersection + {i};
          if intersection != pdom[i] {
            StoreDescends(succs, exits, pdom, i);
            pdom := pdom[i := intersection];
            changed := true;
          }
        }
      }
    }
    DescendingBounds(succs, exits, pdom);
    StableIsMeaning(succs, exits, pdom);
  }

  /** Starting from the first set instead of the universe makes no difference. */
  lemma HeadIntersection(picked: seq<nat>, sets: seq<set<nat>>, all: set<nat>, r: set<nat>)
    requires picked != [] && forall k :: 0 <= k < |picked| ==> picked[k] < |sets| && sets[picked[k]] <= all
    requires forall v ::
               v in r <==> v in sets[picked[0]] && forall k :: 0 <= k < |picked[1..]| ==> v in sets[picked[1..][k]]
    ensures forall v :: v in r <==> v in all && forall k :: 0 <= k < |picked| ==> v in sets[picked[k]]
  {
    forall v
      ensures v in r <==> v in all && forall k :: 0 <= k < |picked| ==> v in sets[picked[k]]
    {
      if v in r {
        forall k | 0 <= k < |picked| ensures v in sets[picked[k]] {
          assert k > 0 ==> picked[k] == picked[1..][k - 1];
        }
      }
    }
  }

  // ---- reading the results ----

  /** p leads from block 0 to i along the edges that the predecessor lists record. */
  ghost predicate Path(preds: Neighbours, p: seq<nat>, i: nat) {
    && p != [] && p[0] == 0 && p[|p| - 1] == i
    && (forall k :: 0 <= k < |p| ==> p[k] < |preds|)
    && (forall k :: 0 <= k < |p| - 1 ==> p[k] in preds[p[k + 1]])
  }

  function Reversed(p: seq<nat>): (r: seq<nat>)
    ensures |r| == |p| && forall k :: 0 <= k < |p| ==> r[k] == p[|p| - 1 - k]
  {
    if p == [] then [] else Reversed(p[1..]) + [p[0]]
  }

  lemma PathReversed(preds: Neighbours, p: seq<nat>, i: nat)
    ensures Path(preds, p, i) ==> Walk(preds, {0}, Reversed(p), i)
    ensures Walk(preds, {0}, p, i) ==> Path(preds, Reversed(p), i)
    ensures forall v :: v in Reversed(p) <==> v in p
  {
    var r := Reversed(p);
    forall v ensures v in r <==> v in p {
      if v in p {
        var k :| 0 <= k < |p| && p[k] == v;
        assert r[|p| - 1 - k] == v;
      }
    }
    if Path(preds, p, i) {
      forall k | 0 <= k < |r| - 1 ensures r[k + 1] in preds[r[k]] {
        assert r[k + 1] == p[|p| - 2 - k] && r[k] == p[|p| - 2 - k + 1];
      }
    }
    if Walk(preds, {0}, p, i) {
      forall k | 0 <= k < |r| - 1 ensures r[k] in preds[r[k + 1]] {
        assert r[k] == p[|p| - 2 - k + 1] && r[k + 1] == p[|p| - 2 - k];
      }
    }
  }

  /** Walks back to the entry and paths from the entry say the same about dominance. */
  lemma DominanceByPaths(preds: Neighbours, i: nat, v: nat)
    ensures OnEveryWalk(preds, {0}, i, v) <==> forall p :: Path(preds, p, i) ==> v in p
  {
    if OnEveryWalk(preds, {0}, i, v) {
      forall p | Path(preds, p, i) ensures v in p {
        PathReversed(preds, p, i);
      }
    } else {
      var w :| Walk(preds, {0}, w, i) && v !in w;
      PathReversed(preds, w, i);
    }
  }

  /** The sets are the path notion: what both methods ensure. */
  ghost predicate Meaning(adj: Neighbours, seeds: set<nat>, sets: seq<set<nat>>) {
    && |sets| == |adj|
    && (forall i :: 0 <= i < |adj| ==> sets[i] <= Universe(|adj|))
    && (forall i, v :: 0 <= i < |adj| && 0 <= v < |adj| ==> (v in sets[i] <==> OnEveryWalk(adj, seeds, i, v)))
  }

  /** Every block on a walk reaches a seed itself. */
  lemma {:induction false} WalkMembersReach(adj: Neighbours, seeds: set<nat>, p: seq<nat>, i: nat, v: nat)
    requires Walk(adj, seeds, p, i) && v in p
    ensures Reaches(adj, seeds, v)
    decreases |p|
  {
    if v != i {
      assert v in p[1..];
      WalkTail(adj, seeds, p, i);
      WalkMembersReach(adj, seeds, p[1..], p[1], v);
    }
  }

  /** A block that reaches no seed keeps the universe. As soon as there is one such block, the universe marks
      exactly these blocks; otherwise the universe only says that every block lies on every walk. */
  lemma UniverseMarksUnreached(adj: Neighbours, seeds: set<nat>, sets: seq<set<nat>>, i: nat)
    requires Meaning(adj, seeds, sets) && i < |adj|
    ensures !Reaches(adj, seeds, i) ==> sets[i] == Universe(|adj|)
    ensures (exists u: nat :: u < |adj| && !Reaches(adj, seeds, u)) ==>
              (sets[i] == Universe(|adj|) <==> !Reaches(adj, seeds, i))
  {
    if !Reaches(adj, seeds, i) {
      assert forall v: nat :: v < |adj| ==> OnEveryWalk(adj, seeds, i, v);
    } else if u: nat :| u < |adj| && !Reaches(adj, seeds, u) {
      var p :| Walk(adj, seeds, p, i);
      if u in p {
        WalkMembersReach(adj, seeds, p, i, u);
      }
      assert u !in sets[i];
    }
  }

  /** Some walk from i to a seed avoids some block. */
  ghost predicate Avoids(adj: Neighbours, seeds: set<nat>, i: nat) {
    exists v: nat, p :: v < |adj| && Walk(adj, seeds, p, i) && v !in p
  }

  /** Exactly when the universe tells whether block i is reached: when it is not, or some walk avoids some block. */
  lemma UniverseTells(adj: Neighbours, seeds: set<nat>, sets: seq<set<nat>>, i: nat)
    requires Meaning(adj, seeds, sets) && i < |adj|
    ensures (sets[i] == Universe(|adj|) <==> !Reaches(adj, seeds, i))
       <==> (!Reaches(adj, seeds, i) || Avoids(adj, seeds, i))
  {
    if !Reaches(adj, seeds, i) {
      assert forall v: nat :: v < |adj| ==> OnEveryWalk(adj, seeds, i, v);
    } else if Avoids(adj, seeds, i) {
      var v: nat, p :| v < |adj| && Walk(adj, seeds, p, i) && v !in p;
      assert !OnEveryWalk(adj, seeds, i, v);
    } else {
      forall v: nat | v < |adj| ensures v in sets[i] {
        assert OnEveryWalk(adj, seeds, i, v);
      }
    }
  }

  /** For the whole graph: the universe marks exactly the unreached blocks if and only if every reached block has a
      walk that avoids some block. */
  lemma UniverseTellsAll(adj: Neighbours, seeds: set<nat>, sets: seq<set<nat>>)
    requires Meaning(adj, seeds, sets)
    ensures (forall i :: 0 <= i < |adj| ==> (sets[i] == Universe(|adj|) <==> !Reaches(adj, seeds, i)))
       <==> (forall i :: 0 <= i < |adj| && Reaches(adj, seeds, i) ==> Avoids(adj, seeds, i))
  {
    hide Meaning, Reaches, Avoids;
    assert |sets| == |adj| by { MeaningCounts(adj, seeds, sets); }
    forall i | 0 <= i < |adj|
      ensures (sets[i] == Universe(|adj|) <==> !Reaches(adj, seeds, i))
         <==> (Reaches(adj, seeds, i) ==> Avoids(adj, seeds, i))
    {
      UniverseTells(adj, seeds, sets, i);
    }
  }

  lemma MeaningCounts(adj: Neighbours, seeds: set<nat>, sets: seq<set<nat>>)
    requires Meaning(adj, seeds, sets)
    ensures |sets| == |adj|
  {
  }

  /** Some path leads from block 0 to i. */
  ghost predicate Reachable(preds: Neighbours, i: nat) {
    exists p :: Path(preds, p, i)
  }

  /** Some path from block 0 to i leaves out some block. */
  ghost predicate Bypasses(preds: Neighbours, i: nat) {
    exists v: nat, p :: v < |preds| && Path(preds, p, i) && v !in p
  }

  /** For dominators: the universe marks exactly the unreachable blocks if and only if every reachable block has a
      path that leaves out some block. */
  lemma DominatorUniverse(preds: Neighbours, dom: seq<set<nat>>)
    requires Meaning(preds, {0}, dom)
    ensures (forall i :: 0 <= i < |preds| ==> (dom[i] == Universe(|preds|) <==> !Reachable(preds, i)))
       <==> (forall i :: 0 <= i < |preds| && Reachable(preds, i) ==> Bypasses(preds, i))
  {
    UniverseTellsAll(preds, {0}, dom);
    hide Meaning, Reaches, Avoids, Reachable, Bypasses;
    forall i: nat {
      PathsForWalks(preds, i);
    }
  }

  lemma PathsForWalks(preds: Neighbours, i: nat)
    ensures Reaches(preds, {0}, i) <==> Reachable(preds, i)
    ensures Avoids(preds, {0}, i) <==> Bypasses(preds, i)
  {
    hide Path, Walk;
    forall p {
      PathReversed(preds, p, i);
    }
    if p :| Walk(preds, {0}, p, i) {
      assert Path(preds, Reversed(p), i);
    }
    if p :| Path(preds, p, i) {
      assert Walk(preds, {0}, Reversed(p), i);
    }
    if v: nat, p :| v < |preds| && Walk(preds, {0}, p, i) && v !in p {
      assert v !in Reversed(p) && Path(preds, Reversed(p), i);
    }
    if v: nat, p :| v < |preds| && Path(preds, p, i) && v !in p {
      assert v !in Reversed(p) && Walk(preds, {0}, Reversed(p), i);
    }
  }

  /** For post-dominators: the universe marks exactly the blocks that reach no exit if and only if every block that
      reaches one has a walk to an exit that leaves out some block. */
  lemma PostDominatorUniverse(succs: Neighbours, pdom: seq<set<nat>>)
    requires Meaning(succs, ExitBlocks(succs), pdom)
    ensures (forall i :: 0 <= i < |succs| ==>
               (pdom[i] == Universe(|succs|) <==> !Reaches(succs, ExitBlocks(succs), i)))
       <==> (forall i :: 0 <= i < |succs| && Reaches(succs, ExitBlocks(succs), i) ==>
               Avoids(succs, ExitBlocks(succs), i))
  {
    hide Meaning, Reaches, Avoids;
    UniverseTellsAll(succs, ExitBlocks(succs), pdom);
  }

  /** Without an unreached block the universe proves nothing: a lone entry is reached and dominated by all. */
  lemma UniverseIsNotUnreached()
    ensures forall sets :: Meaning([[]], {0}, sets) ==> sets[0] == Universe(1) && Reaches([[]], {0}, 0)
  {
    assert Walk([[]], {0}, [0], 0);
    forall sets | Meaning([[]], {0}, sets) ensures sets[0] == Universe(1) {
      forall p | Walk([[]], {0}, p, 0) ensures 0 in p {
      }
      assert OnEveryWalk([[]], {0}, 0, 0);
    }
  }
}
