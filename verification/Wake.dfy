/** Waking the async readers of a Tunnel: one callback per waiter, or one per loop. */
module Wake {
  import opened Common

  datatype Waiter = Waiter(loop: nat, future: nat)

  /** A call handed to `loop.call_soon_threadsafe`. */
  datatype Callback = Callback(loop: nat, futures: seq<nat>)

  /** Every waiter has a future of its own. */
  ghost predicate Distinct(waiters: set<Waiter>) {
    forall v, w :: v in waiters && w in waiters && v.future == w.future ==> v == w
  }

  function Futures(calls: seq<Callback>): seq<nat> {
    if calls == [] then [] else Futures(calls[..|calls| - 1]) + calls[|calls| - 1].futures
  }

  /** The scheduled calls resolve every waiter whose loop is open, once, on its
      own loop, and no one else. */
  ghost predicate Delivers(calls: seq<Callback>, waiters: set<Waiter>, open: set<nat>) {
    && NoDup(Futures(calls))
    && (forall f :: f in Futures(calls) <==> exists w <- waiters :: w.future == f && w.loop in open)
    && (forall c <- calls :: forall f <- c.futures :: Waiter(c.loop, f) in waiters)
  }

  lemma FuturesAppend(calls: seq<Callback>, c: Callback)
    ensures Futures(calls + [c]) == Futures(calls) + c.futures
  {
    assert (calls + [c])[..|calls|] == calls;
  }

  /** `_resolve_waiter` and `_resolve_group`: set each future that is not done. */
  method ResolveGroup(futures: seq<nat>, done: set<nat>) returns (now: set<nat>, resolved: seq<nat>)
    ensures now == done + Elems(futures)
    ensures NoDup(resolved) && Elems(resolved) == Elems(futures) - done
  {
    now, resolved := done, [];
    for i := 0 to |futures|
      invariant now == done + Elems(futures[..i])
      invariant NoDup(resolved) && Elems(resolved) == now - done
    {
      assert futures[..i + 1] == futures[..i] + [futures[i]];
      ElemsConcat(futures[..i], [futures[i]]);
      if futures[i] !in now {
        ElemsConcat(resolved, [futures[i]]);
        NoDupConcat(resolved, [futures[i]]) by { assert futures[i] !in Elems(resolved); }
        now, resolved := now + {futures[i]}, resolved + [futures[i]];
      }
    }
    assert futures[..|futures|] == futures;
  }

  lemma DeliverOne(calls: seq<Callback>, seen: set<Waiter>, w: Waiter, open: set<nat>)
    requires Delivers(calls, seen, open) && Distinct(seen + {w}) && w !in seen && w.loop in open
    ensures Delivers(calls + [Callback(w.loop, [w.future])], seen + {w}, open)
  {
    FuturesAppend(calls, Callback(w.loop, [w.future]));
    NoDupConcat(Futures(calls), [w.future]);
    forall f
      ensures f in Futures(calls) + [w.future] <==> exists v <- seen + {w} :: v.future == f && v.loop in open
    {
      assert w in seen + {w};
    }
  }

  /** `_wake_waiters_locked` with wake_mode "individual". */
  method WakeIndividual(waiters: set<Waiter>, open: set<nat>) returns (calls: seq<Callback>)
    requires Distinct(waiters)
    ensures Delivers(calls, waiters, open)
  {
    calls := [];
    var rest := waiters;
    while rest != {}
      invariant rest <= waiters
      invariant Delivers(calls, waiters - rest, open)
      decreases |rest|
    {
      var w :| w in rest;
      ghost var seen := waiters - rest;
      rest := rest - {w};
      assert waiters - rest == seen + {w};
      if w.loop in open {
        DeliverOne(calls, seen, w, open);
        calls := calls + [Callback(w.loop, [w.future])];
      }
    }
    assert waiters - rest == waiters;
  }

  ghost predicate Grouped(groups: map<nat, seq<nat>>, waiters: set<Waiter>) {
    && (forall l <- groups :: NoDup(groups[l]))
    && (forall l, f :: l in groups && f in groups[l] ==> Waiter(l, f) in waiters)
    && (forall w <- waiters :: w.loop in groups && w.future in groups[w.loop])
  }

  function Join(groups: map<nat, seq<nat>>, w: Waiter): map<nat, seq<nat>> {
    groups[w.loop := (if w.loop in groups then groups[w.loop] else []) + [w.future]]
  }

  lemma JoinKeeps(groups: map<nat, seq<nat>>, seen: set<Waiter>, w: Waiter)
    requires Grouped(groups, seen) && Distinct(seen + {w}) && w !in seen
    ensures Grouped(Join(groups, w), seen + {w})
  {
    var old_ := if w.loop in groups then groups[w.loop] else [];
    NoDupConcat(old_, [w.future]);
  }

  lemma NewLoop(groups: map<nat, seq<nat>>, loops: seq<nat>, w: Waiter)
    requires NoDup(loops) && groups.Keys == Elems(loops) && w.loop !in groups
    ensures NoDup(loops + [w.loop]) && Join(groups, w).Keys == Elems(loops + [w.loop])
  {
    assert w.loop !in Elems(loops);
    NoDupConcat(loops, [w.loop]);
    ElemsConcat(loops, [w.loop]);
  }

  /** A waiter joins its group; a loop met for the first time is listed. */
  lemma {:induction false} GroupStep(groups: map<nat, seq<nat>>, loops: seq<nat>, waiters: set<Waiter>, rest: set<Waiter>, w: Waiter)
    requires Distinct(waiters) && rest <= waiters && w in rest && Grouped(groups, waiters - rest)
    requires NoDup(loops) && groups.Keys == Elems(loops)
    ensures Grouped(Join(groups, w), waiters - (rest - {w}))
    ensures var now := if w.loop in groups then loops else loops + [w.loop]; NoDup(now) && Join(groups, w).Keys == Elems(now)
  {
    assert waiters - (rest - {w}) == (waiters - rest) + {w};
    JoinKeeps(groups, waiters - rest, w);
    if w.loop !in groups {
      NewLoop(groups, loops, w);
    }
  }

  /** The futures by loop, and the loops in the order in which they were met. */
  method GroupByLoop(waiters: set<Waiter>) returns (groups: map<nat, seq<nat>>, loops: seq<nat>)
    requires Distinct(waiters)
    ensures Grouped(groups, waiters) && NoDup(loops) && groups.Keys == Elems(loops)
  {
    groups, loops := map[], [];
    var rest := waiters;
    while rest != {}
      invariant rest <= waiters
      invariant Grouped(groups, waiters - rest)
      invariant NoDup(loops) && groups.Keys == Elems(loops)
      decreases |rest|
    {
      var w :| w in rest;
      GroupStep(groups, loops, waiters, rest, w);
      if w.loop !in groups {
        loops := loops + [w.loop];
      }
      groups := Join(groups, w);
      rest := rest - {w};
    }
    assert waiters - rest == waiters;
  }

  /** `_wake_waiters_locked` with wake_mode "grouped": one call per loop. */
  method WakeGrouped(waiters: set<Waiter>, open: set<nat>) returns (calls: seq<Callback>)
    requires Distinct(waiters)
    ensures Delivers(calls, waiters, open)
    ensures forall i, j :: 0 <= i < j < |calls| ==> calls[i].loop != calls[j].loop
  {
    var groups, loops := GroupByLoop(waiters);
    calls := Schedule(groups, loops, waiters, open);
  }

  /** Delivery to the loops scheduled so far. */
  ghost predicate DeliversTo(calls: seq<Callback>, groups: map<nat, seq<nat>>, loops: seq<nat>, open: set<nat>) {
    && NoDup(Futures(calls))
    && (forall f :: f in Futures(calls) <==> exists l <- loops :: l in open && l in groups && f in groups[l])
    && (forall c <- calls :: c.loop in loops && c.loop in open && c.loop in groups && c.futures == groups[c.loop])
    && (forall i, j :: 0 <= i < j < |calls| ==> calls[i].loop != calls[j].loop)
  }

  lemma DeliverGroup(calls: seq<Callback>, groups: map<nat, seq<nat>>, loops: seq<nat>, open: set<nat>, l: nat, waiters: set<Waiter>)
    requires DeliversTo(calls, groups, loops, open) && Grouped(groups, waiters) && Distinct(waiters) && l in groups && l !in loops && l in open
    ensures DeliversTo(calls + [Callback(l, groups[l])], groups, loops + [l], open)
  {
    var c := Callback(l, groups[l]);
    FuturesAppend(calls, c);
    forall f <- c.futures
      ensures f !in Futures(calls)
    {
      forall m | m in groups && f in groups[m]
        ensures m == l
      {
        assert Waiter(m, f) in waiters && Waiter(l, f) in waiters;
      }
    }
    NoDupConcat(Futures(calls), c.futures);
    assert forall f :: f in Futures(calls + [c]) <==> f in Futures(calls) || f in groups[l];
    assert l in loops + [l];
    assert forall m <- loops :: m in loops + [l];
  }

  method Schedule(groups: map<nat, seq<nat>>, loops: seq<nat>, ghost waiters: set<Waiter>, open: set<nat>) returns (calls: seq<Callback>)
    requires Distinct(waiters) && Grouped(groups, waiters) && NoDup(loops) && groups.Keys == Elems(loops)
    ensures Delivers(calls, waiters, open)
    ensures forall i, j :: 0 <= i < j < |calls| ==> calls[i].loop != calls[j].loop
  {
    calls := [];
    for i := 0 to |loops|
      invariant DeliversTo(calls, groups, loops[..i], open)
    {
      var l := loops[i];
      assert loops[..i + 1] == loops[..i] + [l] && l in groups.Keys;
      if l in open {
        DeliverGroup(calls, groups, loops[..i], open, l, waiters);
        calls := calls + [Callback(l, groups[l])];
      } else {
        SkipLoop(calls, groups, loops[..i], open, l);
      }
    }
    assert loops[..|loops|] == loops;
    AllDelivered(calls, groups, loops, waiters, open);
  }

  lemma SkipLoop(calls: seq<Callback>, groups: map<nat, seq<nat>>, loops: seq<nat>, open: set<nat>, l: nat)
    requires DeliversTo(calls, groups, loops, open) && l !in open
    ensures DeliversTo(calls, groups, loops + [l], open)
  {
    assert forall m :: m in loops + [l] <==> m in loops || m == l;
  }

  lemma AllDelivered(calls: seq<Callback>, groups: map<nat, seq<nat>>, loops: seq<nat>, waiters: set<Waiter>, open: set<nat>)
    requires DeliversTo(calls, groups, loops, open) && Grouped(groups, waiters) && groups.Keys == Elems(loops)
    ensures Delivers(calls, waiters, open)
  {
    forall f
      ensures f in Futures(calls) <==> exists w <- waiters :: w.future == f && w.loop in open
    {
      if f in Futures(calls) {
        var l :| l in loops && l in open && l in groups && f in groups[l];
        assert Waiter(l, f) in waiters;
      }
      if w :| w in waiters && w.future == f && w.loop in open {
        assert w.loop in groups.Keys && w.loop in loops;
      }
    }
  }

  /** Both modes resolve the same futures, each exactly once. */
  lemma ModesAgree(one: seq<Callback>, many: seq<Callback>, waiters: set<Waiter>, open: set<nat>)
    requires Delivers(one, waiters, open) && Delivers(many, waiters, open)
    ensures multiset(Futures(one)) == multiset(Futures(many))
  {
    assert Elems(Futures(one)) == Elems(Futures(many));
    NoDupMultiset(Futures(one));
    NoDupMultiset(Futures(many));
  }

  lemma {:induction false} NoDupMultiset(s: seq<nat>)
    requires NoDup(s)
    ensures multiset(s) == multiset(Elems(s))
  {
    if s != [] {
      var t := s[..|s| - 1];
      assert s == t + [s[|s| - 1]];
      NoDupMultiset(t);
      assert Elems(s) == Elems(t) + {s[|s| - 1]};
    }
  }
}
