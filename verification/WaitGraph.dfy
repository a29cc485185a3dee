/**
  The wait-for relation between generations: the loop of `g` is blocked in a
  synchronous scope whose work is leased to `h`.
 */
module WaitGraph {
  import opened Common
  import Slots
  import opened CarrierPool

  ghost predicate Via(p: Pool, k: nat, g: nat, h: nat) {
    && k in p.epochs && p.epochs[k].waiter.Some? && p.epochs[k].waiter.value in p.ctxs
    && p.ctxs[p.epochs[k].waiter.value].gen == g
    && p.epochs[k].ctx.gen == h
  }

  ghost predicate Waits(p: Pool, g: nat, h: nat) {
    exists k :: Via(p, k, g, h)
  }

  /** Consecutive generations of `path` wait for one another. */
  ghost predicate Path(p: Pool, path: seq<nat>) {
    forall i, j :: 0 <= i && j == i + 1 && j < |path| ==> Waits(p, path[i], path[j])
  }

  // ---------------------------------------------------- the shape of the edges

  /** With one lane, `base` holding the blocked sets of the escape generations
      and `live` being the lane's current generation: an edge into an escape
      generation comes from a generation that all its work knows to be blocked;
      an edge into the lane comes from an escape generation that does not know
      its target to be blocked; and only `live` can wait on the lane's behalf. */
  ghost predicate Edge(base: map<nat, set<nat>>, live: nat, g: nat, h: nat) {
    && (h in base ==> g < h && g in base[h] && (g in base ==> base[g] <= base[h]))
    && (h !in base ==> g in base && h !in base[g])
    && (g !in base ==> g == live)
  }

  ghost predicate Shaped(base: map<nat, set<nat>>, live: nat, path: seq<nat>) {
    forall i, j :: 0 <= i && j == i + 1 && j < |path| ==> Edge(base, live, path[i], path[j])
  }

  /** From the lane's generation, every escape generation along a path has it in
      its blocked set, so the path cannot return to it. */
  lemma {:induction false} FromTheLane(base: map<nat, set<nat>>, live: nat, path: seq<nat>)
    requires Shaped(base, live, path) && |path| >= 2 && path[0] !in base
    ensures var last := path[|path| - 1]; if last in base then path[0] in base[last] else last != path[0]
    decreases |path|
  {
    var n := |path|;
    assert Edge(base, live, path[0], path[1]);
    if n > 2 {
      FromTheLane(base, live, path[..n - 1]);
      assert Edge(base, live, path[n - 2], path[n - 1]);
    }
  }

  /** Without the lane, ids grow along a path. */
  lemma {:induction false} AmongEscapes(base: map<nat, set<nat>>, live: nat, path: seq<nat>)
    requires Shaped(base, live, path) && |path| >= 2 && (forall x <- path :: x in base)
    ensures path[0] < path[|path| - 1]
    decreases |path|
  {
    var n := |path|;
    assert Edge(base, live, path[n - 2], path[n - 1]);
    if n > 2 {
      AmongEscapes(base, live, path[..n - 1]);
    }
  }

  /** A cycle through position `j`, told from there. */
  lemma Turned(base: map<nat, set<nat>>, live: nat, path: seq<nat>, j: nat)
    requires Shaped(base, live, path) && |path| >= 2 && path[0] == path[|path| - 1] && j < |path|
    ensures Shaped(base, live, path[j..] + path[1..j + 1])
  {
    var n, turned := |path|, path[j..] + path[1..j + 1];
    forall i, k | 0 <= i && k == i + 1 && k < |turned|
      ensures Edge(base, live, turned[i], turned[k])
    {
      var a := if i < n - 1 - j then j + i else i - (n - 1 - j);
      assert turned[i] == path[a] && turned[k] == path[a + 1];
      assert Edge(base, live, path[a], path[a + 1]);
    }
  }

  lemma ShapedIsAcyclic(base: map<nat, set<nat>>, live: nat, path: seq<nat>)
    requires Shaped(base, live, path) && |path| >= 2
    ensures path[0] != path[|path| - 1]
  {
    if path[0] == path[|path| - 1] {
      if j :| 0 <= j < |path| && path[j] !in base {
        Turned(base, live, path, j);
        FromTheLane(base, live, path[j..] + path[1..j + 1]);
      } else {
        AmongEscapes(base, live, path);
      }
    }
  }

  // --------------------------------------------------- the pool has that shape

  lemma OnLaneOrEscape(p: Pool, s: nat, id: nat)
    requires LanesOk(p.lanes, p.escapes, p.slots.Keys, p.slotCounter) && EscapesOk(p.lanes, p.escapes, p.slots, p.base)
    requires |p.lanes| == 1 && s in p.slots && Slots.GenOf(p.slots[s], id).Some?
    ensures id in p.base <==> s != p.lanes[0]
  {
    assert p.lanes[0] in p.lanes;
    if s != p.lanes[0] {
      assert s in p.escapes;
    }
  }

  function LiveOnLane(p: Pool): nat
    requires |p.lanes| == 1
  {
    if p.lanes[0] in p.slots && p.slots[p.lanes[0]].current.Some? then p.slots[p.lanes[0]].current.value.id else 0
  }

  lemma LineageOfWait(c: Ctx, e: Ctx)
    requires e.lineage == c.lineage + [c.gen]
    ensures Elems(e.lineage) == Elems(c.lineage) + {c.gen}
  {
    assert e.lineage[|c.lineage|] == c.gen;
    assert forall i | 0 <= i < |c.lineage| :: e.lineage[i] == c.lineage[i];
  }

  lemma WaitsAreEdges(p: Pool, g: nat, h: nat)
    requires Inv(p) && |p.lanes| == 1 && Waits(p, g, h)
    ensures Edge(p.base, LiveOnLane(p), g, h)
  {
    var k :| Via(p, k, g, h);
    var e, x := p.epochs[k], p.epochs[k].waiter.value;
    var c := p.ctxs[x];
    assert WaitOk(p.ctxs, p.alive, e);
    WaiterPlace(p, x);
    EpochPlace(p, k);
    LineageOfWait(c, e.ctx);
    EdgeFrom(p, c, e.ctx);
  }

  lemma WaiterPlace(p: Pool, x: nat)
    requires Inv(p) && |p.lanes| == 1 && x in p.alive
    ensures x in p.ctxs && Based(p.ctxs[x], p.base) && CtxOk(p.ctxs[x], p.counter)
    ensures p.ctxs[x].gen in p.base <==> p.ctxs[x].slot != p.lanes[0]
    ensures p.ctxs[x].slot == p.lanes[0] ==> p.ctxs[x].gen == LiveOnLane(p)
  {
    var c := p.ctxs[x];
    assert Executing(p.slots[c.slot], c.gen, x);
    OnLaneOrEscape(p, c.slot, c.gen);
  }

  lemma EpochPlace(p: Pool, k: nat)
    requires Inv(p) && |p.lanes| == 1 && k in p.epochs
    ensures var c := p.epochs[k].ctx; Based(c, p.base) && CtxOk(c, p.counter) && (c.gen in p.base <==> c.slot != p.lanes[0])
  {
    var c := p.epochs[k].ctx;
    assert Slots.Leased(p.slots[c.slot], c.gen, k);
    OnLaneOrEscape(p, c.slot, c.gen);
  }

  lemma EdgeFrom(p: Pool, c: Ctx, e: Ctx)
    requires |p.lanes| == 1 && BaseOk(p.base, p.counter) && Based(c, p.base) && Based(e, p.base) && CtxOk(e, p.counter)
    requires Elems(e.lineage) == Elems(c.lineage) + {c.gen} && c.slot != e.slot
    requires (c.gen in p.base <==> c.slot != p.lanes[0]) && (e.gen in p.base <==> e.slot != p.lanes[0])
    requires c.slot == p.lanes[0] ==> c.gen == LiveOnLane(p)
    ensures Edge(p.base, LiveOnLane(p), c.gen, e.gen)
  {
    assert e.gen !in Elems(e.lineage);
  }

  /** With the default single lane no run of nested synchronous scopes closes a
      wait cycle, however their critical sections interleave. */
  lemma NoWaitCycleInAnyRun(es: seq<Event>, path: seq<nat>)
    requires |path| >= 2 && Path(Run(Init(1), es), path)
    ensures path[0] != path[|path| - 1]
  {
    var p := Run(Init(1), es);
    InitInv(1);
    RunKeepsInv(Init(1), es);
    LanesAreFixed(Init(1), es);
    forall i, j | 0 <= i && j == i + 1 && j < |path|
      ensures Edge(p.base, LiveOnLane(p), path[i], path[j])
    {
      WaitsAreEdges(p, path[i], path[j]);
    }
    ShapedIsAcyclic(p.base, LiveOnLane(p), path);
  }

  lemma {:induction false} LanesAreFixed(p: Pool, es: seq<Event>)
    ensures Run(p, es).lanes == p.lanes
    decreases |es|
  {
    if es != [] {
      LanesAreFixed(Step(p, es[0]), es[1..]);
    }
  }
}
