/**
  Why acyclic waits are a property of the single lane: with more lanes, unrelated
  lineages can wait for each other in a ring, on the lanes the selector gives them.
 */
module ManyLanes {
  import opened Common
  import Slots
  import opened CarrierPool
  import WaitGraph
  import LaneSelection

  /** What reading a lane adds to the candidates of a scope entered by `who`. */
  function Candidates(p: Pool, who: Option<nat>, on: bool, lane: nat): set<nat> {
    if Eligible(p, who, on, lane) then {lane} else {}
  }

  function Scanned(p: Pool, who: Option<nat>, on: bool, seen: nat, kept: set<nat>, chosen: Option<nat>): Pool {
    p.(scans := map[p.tokens := Scan(who, on, on, seen, kept, chosen)], tokens := p.tokens + 1)
  }

  function Reads(t: nat, n: nat): seq<Event> {
    seq(n, _ => ReadLane(t))
  }

  /** One scope: enter, read every lane, choose, lease. */
  function Scanning(n: nat, t: nat, who: Option<nat>, on: bool, lane: nat): seq<Event> {
    [Acquire(who, on, on)] + Reads(t, n) + [Choose(t, lane)] + [TakeLease(t)]
  }

  function CandidatesOf(p: Pool, who: Option<nat>, on: bool, i: nat): set<nat>
    requires i <= |p.lanes|
  {
    if i == 0 then {} else CandidatesOf(p, who, on, i - 1) + Candidates(p, who, on, p.lanes[i - 1])
  }

  lemma {:induction false} CandidatesBelow(p: Pool, who: Option<nat>, on: bool, i: nat, j: nat)
    requires i < j <= |p.lanes|
    ensures Candidates(p, who, on, p.lanes[i]) <= CandidatesOf(p, who, on, j)
  {
    if i < j - 1 {
      CandidatesBelow(p, who, on, i, j - 1);
    }
  }

  lemma ScanStart(p: Pool, who: Option<nat>, on: bool)
    requires p.scans == map[] && Enabled(p, Acquire(who, on, on)) && (who.Some? ==> on)
    ensures Step(p, Acquire(who, on, on)) == Scanned(p, who, on, 0, {}, None)
  {
  }

  lemma {:induction false} ScanRead(p: Pool, who: Option<nat>, on: bool, seen: nat, kept: set<nat>)
    requires seen < |p.lanes|
    ensures Step(Scanned(p, who, on, seen, kept, None), ReadLane(p.tokens))
         == Scanned(p, who, on, seen + 1, kept + Candidates(p, who, on, p.lanes[seen]), None)
  {
    var q := Scanned(p, who, on, seen, kept, None);
    var r := Read(q, p.tokens);
    assert r.scans == map[p.tokens := r.scans[p.tokens]];
    assert kept + {} == kept;
  }

  lemma {:induction false} ScanReads(p: Pool, who: Option<nat>, on: bool, i: nat)
    requires i <= |p.lanes|
    ensures Run(Scanned(p, who, on, 0, {}, None), Reads(p.tokens, i)) == Scanned(p, who, on, i, CandidatesOf(p, who, on, i), None)
  {
    if i > 0 {
      var q := Scanned(p, who, on, 0, {}, None);
      assert Reads(p.tokens, i) == Reads(p.tokens, i - 1) + [ReadLane(p.tokens)];
      ScanReads(p, who, on, i - 1);
      Then(q, Reads(p.tokens, i - 1), ReadLane(p.tokens));
      ScanRead(p, who, on, i - 1, CandidatesOf(p, who, on, i - 1));
    }
  }

  lemma {:induction false} Then(p: Pool, es: seq<Event>, e: Event)
    ensures Run(p, es + [e]) == Step(Run(p, es), e)
  {
    RunConcat(p, es, [e]);
    var q := Run(p, es);
    assert Run(q, [e]) == Run(Step(q, e), []);
  }

  lemma {:induction false} TwoSteps(p: Pool, a: Event, b: Event)
    ensures Run(p, [a, b]) == Step(Step(p, a), b)
  {
    var q := Step(p, a);
    assert Run(q, [b]) == Run(Step(q, b), []);
    assert [a, b][1..] == [b];
  }

  lemma {:induction false} ScanChoose(p: Pool, who: Option<nat>, on: bool, kept: set<nat>, lane: nat)
    requires lane in kept
    ensures Step(Scanned(p, who, on, |p.lanes|, kept, None), Choose(p.tokens, lane)) == Scanned(p, who, on, |p.lanes|, kept, Some(lane))
  {
    var q := Scanned(p, who, on, |p.lanes|, kept, None);
    var r := Chosen(q, p.tokens, lane);
    assert r.scans == map[p.tokens := r.scans[p.tokens]];
  }

  /** A scope, synchronous or external, up to its choice. */
  lemma {:induction false} ScanRun(p: Pool, who: Option<nat>, on: bool, lane: nat)
    requires p.scans == map[] && Enabled(p, Acquire(who, on, on)) && (who.Some? ==> on)
    requires lane in CandidatesOf(p, who, on, |p.lanes|)
    ensures Run(p, [Acquire(who, on, on)] + Reads(p.tokens, |p.lanes|) + [Choose(p.tokens, lane)])
         == Scanned(p, who, on, |p.lanes|, CandidatesOf(p, who, on, |p.lanes|), Some(lane))
  {
    var n, t := |p.lanes|, p.tokens;
    ScanStart(p, who, on);
    Then(p, [], Acquire(who, on, on));
    assert [] + [Acquire(who, on, on)] == [Acquire(who, on, on)];
    RunConcat(p, [Acquire(who, on, on)], Reads(t, n));
    ScanReads(p, who, on, n);
    Then(p, [Acquire(who, on, on)] + Reads(t, n), Choose(t, lane));
    ScanChoose(p, who, on, CandidatesOf(p, who, on, n), lane);
  }

  /** The epoch of a scope that lands on `lane` ... */
  function EpochOn(p: Pool, who: Option<nat>, on: bool, lane: nat): Epoch
    requires lane in p.slots && Slots.Granted(p.slots[lane], None, p.counter + 1).Some?
  {
    var gen := Slots.Granted(p.slots[lane], None, p.counter + 1).value;
    var lineage := if who.None? || who.value !in p.ctxs then []
                   else if on && gen != p.ctxs[who.value].gen then p.ctxs[who.value].lineage + [p.ctxs[who.value].gen]
                   else p.ctxs[who.value].lineage;
    Epoch(Ctx(lane, gen, lineage), if on then who else None)
  }

  /** ... and what the scope does. */
  function AfterTake(p: Pool, who: Option<nat>, on: bool, lane: nat): Pool
    requires lane in p.slots && Slots.Granted(p.slots[lane], None, p.counter + 1).Some?
  {
    var r := Apply(p.(tokens := p.tokens + 1), lane, Slots.Reserve(None, p.counter + 1, Slots.Lease, p.tokens + 1));
    r.(epochs := r.epochs[p.tokens + 1 := EpochOn(p, who, on, lane)])
  }

  lemma {:induction false} TakeStep(p: Pool, who: Option<nat>, on: bool, seen: nat, kept: set<nat>, lane: nat)
    requires lane in p.slots && Slots.Granted(p.slots[lane], None, p.counter + 1).Some?
    ensures var q := Scanned(p, who, on, seen, kept, Some(lane));
            Step(q, TakeLease(p.tokens)) == CarrierPool.Leased(q, p.tokens)
  {
  }

  lemma {:induction false} TakenEpoch(p: Pool, who: Option<nat>, on: bool, seen: nat, kept: set<nat>, lane: nat)
    requires lane in p.slots && Slots.Granted(p.slots[lane], None, p.counter + 1).Some?
    ensures var q := Scanned(p, who, on, seen, kept, Some(lane));
            NewEpoch(q, q.scans[p.tokens], lane) == EpochOn(p, who, on, lane)
  {
  }

  lemma {:induction false} LeasedOnLane(q: Pool, t: nat, lane: nat)
    requires t in q.scans && q.scans[t].chosen == Some(lane) && lane in q.slots && lane !in q.escapes
    ensures var r := Apply(q.(scans := q.scans - {t}), lane, Unpinned(q));
            CarrierPool.Leased(q, t) == r.(epochs := r.epochs[q.tokens := NewEpoch(q, q.scans[t], lane)])
  {
  }

  lemma {:induction false} TakeRun(p: Pool, who: Option<nat>, on: bool, seen: nat, kept: set<nat>, lane: nat)
    requires p.scans == map[] && p.escapes == {} && lane in p.slots && Slots.Granted(p.slots[lane], None, p.counter + 1).Some?
    ensures CarrierPool.Leased(Scanned(p, who, on, seen, kept, Some(lane)), p.tokens) == AfterTake(p, who, on, lane)
  {
    var q := Scanned(p, who, on, seen, kept, Some(lane));
    assert q.scans - {p.tokens} == map[];
    assert q.(scans := q.scans - {p.tokens}) == p.(tokens := p.tokens + 1);
    LeasedOnLane(q, p.tokens, lane);
    TakenEpoch(p, who, on, seen, kept, lane);
  }

  lemma {:induction false} ScopeRun(p: Pool, who: Option<nat>, on: bool, i: nat)
    requires p.scans == map[] && p.escapes == {} && Enabled(p, Acquire(who, on, on)) && (who.Some? ==> on)
    requires i < |p.lanes| && Candidates(p, who, on, p.lanes[i]) == {p.lanes[i]}
    requires p.lanes[i] in p.slots && Slots.Granted(p.slots[p.lanes[i]], None, p.counter + 1).Some?
    ensures Run(p, Scanning(|p.lanes|, p.tokens, who, on, p.lanes[i])) == AfterTake(p, who, on, p.lanes[i])
  {
    var n, t, lane := |p.lanes|, p.tokens, p.lanes[i];
    CandidatesBelow(p, who, on, i, n);
    assert lane in Candidates(p, who, on, lane);
    ScanRun(p, who, on, lane);
    Then(p, [Acquire(who, on, on)] + Reads(t, n) + [Choose(t, lane)], TakeLease(t));
    TakeStep(p, who, on, n, CandidatesOf(p, who, on, n), lane);
    TakeRun(p, who, on, n, CandidatesOf(p, who, on, n), lane);
  }

  // ------------------------------------------------------------- a ring of waits
  // External Stages lease lanes 1 to n; one execution runs on each lane; then each,
  // in turn, enters a synchronous scope.  Every scope must avoid its own lane and is
  // given the next one, so that in the end every loop waits for its neighbour.

  /** A lane with generation `g`, before its start... */
  function Idle(g: nat, n: nat, pending: seq<nat>, leases: set<nat>, used: set<nat>): Slot {
    Slots.Slot(Some(Slots.Gen(g, Slots.Queued, n, false, pending, [], pending, [], {}, leases, {}, 0)), None, [g], g, used)
  }

  /** ... and with execution `x` running. */
  function Busy(g: nat, n: nat, x: nat, leases: set<nat>, used: set<nat>): Slot {
    Slots.Slot(Some(Slots.Gen(g, Slots.Open, n, true, [], [], [x], [x], {x}, leases, {}, 0)), None, [g], g, used)
  }

  lemma LaneLease(g: nat, tok: nat)
    requires g > 0
    ensures Slots.Granted(Slots.EMPTY, None, g) == Some(g)
    ensures Slots.Step(Slots.EMPTY, Slots.Reserve(None, g, Slots.Lease, tok)) == Idle(g, 1, [], {tok}, {tok})
  {
    assert Slots.EMPTY.queue + [g] == [g] && {} + {tok} == {tok};
  }

  lemma LaneSubmit(g: nat, lease: nat, tok: nat, newId: nat)
    requires lease != tok && g < newId
    ensures var s := Idle(g, 1, [], {lease}, {lease});
            && Slots.Granted(s, Some(g), newId).Some?
            && Slots.Step(s, Slots.Reserve(Some(g), newId, Slots.Submission, tok)) == Idle(g, 2, [tok], {lease}, {lease, tok})
  {
    assert [] + [tok] == [tok] && {lease} + {tok} == {lease, tok};
  }

  lemma LaneRuns(g: nat, lease: nat, x: nat)
    ensures var s := Idle(g, 2, [x], {lease}, {lease, x});
            && Slots.Enabled(s, Slots.Start)
            && Slots.Enabled(Slots.Step(s, Slots.Start), Slots.Begin(g))
            && Slots.GenOf(Slots.Step(s, Slots.Start), g).Some?
            && Slots.GenOf(Slots.Step(s, Slots.Start), g).value.ready == [x]
            && Slots.Step(s, Slots.Start).top == g
            && Slots.Step(Slots.Step(s, Slots.Start), Slots.Begin(g)) == Busy(g, 2, x, {lease}, {lease, x})
  {
    assert [] + [x] == [x] && [x][1..] == [] && {} + {x} == {x};
  }

  lemma LaneLeaseAgain(g: nat, x: nat, lease: nat, tok: nat, newId: nat)
    requires tok !in {lease, x} && g < newId
    ensures var s := Busy(g, 2, x, {lease}, {lease, x});
            && Slots.Granted(s, None, newId) == Some(g)
            && Slots.Step(s, Slots.Reserve(None, newId, Slots.Lease, tok)) == Busy(g, 3, x, {lease, tok}, {lease, x, tok})
  {
    assert {lease} + {tok} == {lease, tok} && {lease, x} + {tok} == {lease, x, tok};
  }

  function X(n: nat, j: nat): nat
    requires j > 0
  {
    2 * n + j - 1
  }

  function Lease(j: nat): nat
    requires j > 0
  {
    2 * j - 1
  }

  function NestedLease(n: nat, j: nat): nat
    requires j > 0
  {
    5 * n + 2 * j - 1
  }

  /** The neighbour of lane `j`. */
  function After(n: nat, j: nat): nat {
    if j < n then j + 1 else 1
  }

  function Reserved(j: nat): Slot
    requires j > 0
  {
    Idle(j, 1, [], {Lease(j)}, {Lease(j)})
  }

  function Filled(n: nat, j: nat): Slot
    requires j > 0
  {
    Idle(j, 2, [X(n, j)], {Lease(j)}, {Lease(j), X(n, j)})
  }

  function Working(n: nat, j: nat): Slot
    requires j > 0
  {
    Busy(j, 2, X(n, j), {Lease(j)}, {Lease(j), X(n, j)})
  }

  /** Lane `After(n, j)`, working, once lane `j` waits for it. */
  function Awaited(n: nat, j: nat): Slot
    requires j > 0
  {
    var k := After(n, j);
    Busy(k, 3, X(n, k), {Lease(k), NestedLease(n, j)}, {Lease(k), X(n, k), NestedLease(n, j)})
  }

  // The pool after `i` rounds of each of the four phases.

  function Round1(p: Pool, i: nat): Pool
    requires i > 0
  {
    p.(slots := p.slots[i := Reserved(i)], counter := i, tokens := p.tokens + 2,
    epochs := p.epochs[Lease(i) := Epoch(Ctx(i, i, []), None)])
  }

  function Round2(p: Pool, n: nat, i: nat): Pool
    requires i > 0
  {
    p.(slots := p.slots[i := Filled(n, i)], tokens := p.tokens + 1, ctxs := p.ctxs[X(n, i) := Ctx(i, i, [])])
  }

  function Round3(p: Pool, n: nat, i: nat): Pool
    requires i > 0
  {
    p.(slots := p.slots[i := Working(n, i)], tokens := p.tokens + 2, alive := p.alive + {X(n, i)})
  }

  function Round4(p: Pool, n: nat, i: nat): Pool
    requires i > 0
  {
    p.(slots := p.slots[After(n, i) := Awaited(n, i)], tokens := p.tokens + 2,
    epochs := p.epochs[NestedLease(n, i) := Epoch(Ctx(After(n, i), After(n, i), [i]), Some(X(n, i)))])
  }

  function Pool1(n: nat, i: nat): Pool {
    if i == 0 then Init(n) else Round1(Pool1(n, i - 1), i)
  }

  function Pool2(n: nat, i: nat): Pool {
    if i == 0 then Pool1(n, n) else Round2(Pool2(n, i - 1), n, i)
  }

  function Pool3(n: nat, i: nat): Pool {
    if i == 0 then Pool2(n, n) else Round3(Pool3(n, i - 1), n, i)
  }

  function Pool4(n: nat, i: nat): Pool {
    if i == 0 then Pool3(n, n) else Round4(Pool4(n, i - 1), n, i)
  }

  // ---- what these pools look like

  lemma {:induction false} Shape1(n: nat, i: nat, s: nat)
    requires i <= n && 1 <= s <= n
    ensures var p := Pool1(n, i);
            && p == p.(lanes := Init(n).lanes, escapes := {}, ctxs := map[], alive := {}, scans := map[], base := map[], slotCounter := n)
            && p.counter == i && p.tokens == 2 * i
            && s in p.slots && p.slots[s] == (if s <= i then Reserved(s) else Slots.EMPTY)
            && (s <= i ==> Lease(s) in p.epochs && p.epochs[Lease(s)] == Epoch(Ctx(s, s, []), None))
  {
    if i > 0 {
      Shape1(n, i - 1, s);
    } else {
      assert Init(n).lanes[s - 1] == s;
    }
  }

  lemma {:induction false} Shape2(n: nat, i: nat, s: nat)
    requires i <= n && 1 <= s <= n
    ensures var p := Pool2(n, i);
            && p == p.(lanes := Init(n).lanes, escapes := {}, alive := {}, scans := map[], epochs := Pool1(n, n).epochs)
            && p.counter == n && p.tokens == 2 * n + i
            && s in p.slots && p.slots[s] == (if s <= i then Filled(n, s) else Reserved(s))
            && (s <= i ==> X(n, s) in p.ctxs && p.ctxs[X(n, s)] == Ctx(s, s, []))
  {
    if i > 0 {
      Shape2(n, i - 1, s);
    } else {
      Shape1(n, n, s);
    }
  }

  lemma {:induction false} Shape3(n: nat, i: nat, s: nat)
    requires i <= n && 1 <= s <= n
    ensures var p := Pool3(n, i);
            && p == p.(lanes := Init(n).lanes, escapes := {}, scans := map[], ctxs := Pool2(n, n).ctxs)
            && p.counter == n && p.tokens == 3 * n + 2 * i
            && s in p.slots && p.slots[s] == (if s <= i then Working(n, s) else Filled(n, s))
            && (s <= i ==> X(n, s) in p.alive)
  {
    if i > 0 {
      Shape3(n, i - 1, s);
    } else {
      Shape2(n, n, s);
    }
  }

  lemma {:induction false} Shape4(n: nat, i: nat, s: nat)
    requires n >= 2 && i <= n && 1 <= s <= n
    ensures var p := Pool4(n, i);
            && p == p.(lanes := Init(n).lanes, escapes := {}, scans := map[], ctxs := Pool2(n, n).ctxs, alive := Pool3(n, n).alive)
            && p.counter == n && p.tokens == 5 * n + 2 * i
            && s in p.slots
            && p.slots[s] == (if s == 1 then (if i == n then Awaited(n, n) else Working(n, 1))
                              else if s <= i + 1 then Awaited(n, s - 1) else Working(n, s))
            && (s <= i ==> NestedLease(n, s) in p.epochs
                           && p.epochs[NestedLease(n, s)] == Epoch(Ctx(After(n, s), After(n, s), [s]), Some(X(n, s))))
  {
    if i > 0 {
      Shape4(n, i - 1, s);
    } else {
      Shape3(n, n, s);
    }
  }

  // ---- one round of each phase

  lemma {:induction false} AfterLease(p: Pool, k: nat)
    requires k > 0 && k in p.slots && p.slots[k] == Slots.EMPTY && p.counter == k - 1
    ensures Slots.Granted(p.slots[k], None, p.counter + 1) == Some(k)
    ensures AfterTake(p, None, false, k) ==
            p.(slots := p.slots[k := Idle(k, 1, [], {p.tokens + 1}, {p.tokens + 1})], counter := k, tokens := p.tokens + 2,
               epochs := p.epochs[p.tokens + 1 := Epoch(Ctx(k, k, []), None)])
  {
    LaneLease(k, p.tokens + 1);
  }

  /** An external scope that opens lane `k`. */
  lemma {:induction false} LeaseLands(p: Pool, k: nat)
    requires p.scans == map[] && p.escapes == {} && 1 <= k <= |p.lanes| && p.lanes[k - 1] == k
    requires k in p.slots && p.slots[k] == Slots.EMPTY && p.counter == k - 1
    ensures Run(p, Scanning(|p.lanes|, p.tokens, None, false, k)) ==
            p.(slots := p.slots[k := Idle(k, 1, [], {p.tokens + 1}, {p.tokens + 1})], counter := k, tokens := p.tokens + 2,
               epochs := p.epochs[p.tokens + 1 := Epoch(Ctx(k, k, []), None)])
  {
    AfterLease(p, k);
    ScopeRun(p, None, false, k - 1);
  }

  lemma {:induction false} BeforeLease(n: nat, i: nat)
    requires 1 <= i <= n
    ensures var p := Pool1(n, i - 1);
            && p.scans == map[] && p.escapes == {} && |p.lanes| == n && p.lanes[i - 1] == i
            && i in p.slots && p.slots[i] == Slots.EMPTY && p.counter == i - 1 && p.tokens == 2 * (i - 1)
  {
    Shape1(n, i - 1, i);
  }

  lemma {:induction false} Round1Runs(n: nat, i: nat)
    requires 1 <= i <= n
    ensures Run(Pool1(n, i - 1), Scanning(n, 2 * (i - 1), None, false, i)) == Round1(Pool1(n, i - 1), i)
  {
    BeforeLease(n, i);
    LeaseLands(Pool1(n, i - 1), i);
  }

  lemma {:induction false} SubmitLands(p: Pool, k: nat, lease: nat)
    requires lease in p.epochs && p.epochs[lease].ctx == Ctx(k, k, []) && p.tokens != lease && k <= p.counter
    requires k in p.slots && p.slots[k] == Idle(k, 1, [], {lease}, {lease})
    ensures Step(p, Submit(lease)) ==
            p.(slots := p.slots[k := Idle(k, 2, [p.tokens], {lease}, {lease, p.tokens})], tokens := p.tokens + 1,
               ctxs := p.ctxs[p.tokens := Ctx(k, k, [])])
  {
    LaneSubmit(k, lease, p.tokens, p.counter + 1);
  }

  lemma {:induction false} BeforeSubmit(n: nat, i: nat)
    requires 1 <= i <= n
    ensures var p := Pool2(n, i - 1);
            && Lease(i) in p.epochs && p.epochs[Lease(i)].ctx == Ctx(i, i, [])
            && p.tokens == X(n, i) && p.counter == n && i in p.slots && p.slots[i] == Reserved(i)
  {
    Shape2(n, i - 1, i);
    Shape1(n, n, i);
  }

  lemma {:induction false} Round2Runs(n: nat, i: nat)
    requires 1 <= i <= n
    ensures Step(Pool2(n, i - 1), Submit(Lease(i))) == Round2(Pool2(n, i - 1), n, i)
  {
    BeforeSubmit(n, i);
    SubmitLands(Pool2(n, i - 1), i, Lease(i));
  }

  /** Starting lane `s` and its one submission `x`. */
  lemma {:induction false} Starts(p: Pool, s: nat, lease: nat, x: nat)
    requires s in p.slots && p.slots[s] == Idle(s, 2, [x], {lease}, {lease, x}) && s <= p.counter
    ensures Step(Step(p, Loop(s, Slots.Start)), Loop(s, Slots.Begin(s))) ==
            p.(slots := p.slots[s := Busy(s, 2, x, {lease}, {lease, x})], tokens := p.tokens + 2, alive := p.alive + {x})
  {
    LaneRuns(s, lease, x);
    var q := Step(p, Loop(s, Slots.Start));
    assert q == Apply(p, s, Slots.Start);
    assert q.slots[s] == Slots.Step(p.slots[s], Slots.Start);
  }

  lemma {:induction false} Round3Runs(n: nat, i: nat)
    requires 1 <= i <= n
    ensures Run(Pool3(n, i - 1), Starting(i)) == Round3(Pool3(n, i - 1), n, i)
  {
    Shape3(n, i - 1, i);
    TwoSteps(Pool3(n, i - 1), Loop(i, Slots.Start), Loop(i, Slots.Begin(i)));
    Starts(Pool3(n, i - 1), i, Lease(i), X(n, i));
  }

  /** The lane of generation `s`, at work. */
  predicate AtWork(slot: Slot, s: nat) {
    slot.current.Some? && slot.current.value.id == s && slot.current.value.live && slot.next.None?
  }

  lemma {:induction false} CandidateAtWork(p: Pool, x: nat, i: nat, s: nat)
    requires x in p.ctxs && p.ctxs[x] == Ctx(i, i, []) && s in p.slots && AtWork(p.slots[s], s)
    ensures Candidates(p, Some(x), true, s) == if s == i then {} else {s}
  {
  }

  lemma {:induction false} Entering(n: nat, i: nat)
    requires n >= 2 && 1 <= i <= n
    ensures var p := Pool4(n, i - 1); X(n, i) in p.ctxs && X(n, i) in p.alive && p.ctxs[X(n, i)] == Ctx(i, i, [])
  {
    Shape4(n, i - 1, i);
    Shape3(n, n, i);
    Shape2(n, n, i);
  }

  lemma {:induction false} AfterScope(p: Pool, x: nat, i: nat, k: nat, y: nat, lease: nat)
    requires x in p.ctxs && p.ctxs[x] == Ctx(i, i, []) && k != i && k in p.slots && k <= p.counter
    requires p.slots[k] == Busy(k, 2, y, {lease}, {lease, y}) && p.tokens + 1 !in {lease, y}
    ensures Slots.Granted(p.slots[k], None, p.counter + 1) == Some(k)
    ensures var w := p.tokens + 1;
            AfterTake(p, Some(x), true, k) ==
            p.(slots := p.slots[k := Busy(k, 3, y, {lease, w}, {lease, y, w})], tokens := p.tokens + 2,
               epochs := p.epochs[w := Epoch(Ctx(k, k, [i]), Some(x))])
  {
    LaneLeaseAgain(k, y, lease, p.tokens + 1, p.counter + 1);
    assert [] + [i] == [i];
  }

  /** A scope entered on lane `i` that lands on the working lane `k`. */
  lemma {:induction false} ScopeLands(p: Pool, x: nat, i: nat, k: nat, y: nat, lease: nat)
    requires p.scans == map[] && p.escapes == {} && x in p.ctxs && x in p.alive && p.ctxs[x] == Ctx(i, i, [])
    requires 1 <= k <= |p.lanes| && p.lanes[k - 1] == k != i && k in p.slots && k <= p.counter
    requires p.slots[k] == Busy(k, 2, y, {lease}, {lease, y}) && p.tokens + 1 !in {lease, y}
    ensures var w := p.tokens + 1;
            Run(p, Scanning(|p.lanes|, p.tokens, Some(x), true, k)) ==
            p.(slots := p.slots[k := Busy(k, 3, y, {lease, w}, {lease, y, w})], tokens := p.tokens + 2,
               epochs := p.epochs[w := Epoch(Ctx(k, k, [i]), Some(x))])
  {
    CandidateAtWork(p, x, i, k);
    AfterScope(p, x, i, k, y, lease);
    ScopeRun(p, Some(x), true, k - 1);
  }

  predicate ScopeReady(p: Pool, n: nat, i: nat)
    requires i > 0
  {
    && p.lanes == Init(n).lanes && p.escapes == {} && p.scans == map[]
    && p.counter == n && p.tokens == 5 * n + 2 * (i - 1)
    && X(n, i) in p.ctxs && X(n, i) in p.alive && p.ctxs[X(n, i)] == Ctx(i, i, [])
    && After(n, i) in p.slots && p.slots[After(n, i)] == Working(n, After(n, i))
  }

  lemma {:induction false} Round4Lands(p: Pool, n: nat, i: nat)
    requires n >= 2 && 1 <= i <= n && ScopeReady(p, n, i)
    ensures Run(p, Scanning(n, 5 * n + 2 * (i - 1), Some(X(n, i)), true, After(n, i))) == Round4(p, n, i)
  {
    var k := After(n, i);
    ScopeLands(p, X(n, i), i, k, X(n, k), Lease(k));
  }

  lemma {:induction false} BeforeScope(n: nat, i: nat)
    requires n >= 2 && 1 <= i <= n
    ensures ScopeReady(Pool4(n, i - 1), n, i)
  {
    Shape4(n, i - 1, After(n, i));
    Entering(n, i);
  }

  lemma {:induction false} Round4Runs(n: nat, i: nat)
    requires n >= 2 && 1 <= i <= n
    ensures Run(Pool4(n, i - 1), Scanning(n, 5 * n + 2 * (i - 1), Some(X(n, i)), true, After(n, i))) == Pool4(n, i)
  {
    BeforeScope(n, i);
    Round4Lands(Pool4(n, i - 1), n, i);
  }

  // ---- the run

  function Events1(n: nat, i: nat): seq<Event> {
    if i == 0 then [] else Events1(n, i - 1) + Scanning(n, 2 * (i - 1), None, false, i)
  }

  function Events2(i: nat): seq<Event> {
    if i == 0 then [] else Events2(i - 1) + [Submit(Lease(i))]
  }

  function Starting(i: nat): seq<Event> {
    [Loop(i, Slots.Start), Loop(i, Slots.Begin(i))]
  }

  function Events3(i: nat): seq<Event> {
    if i == 0 then [] else Events3(i - 1) + Starting(i)
  }

  function Events4(n: nat, i: nat): seq<Event> {
    if i == 0 then [] else Events4(n, i - 1) + Scanning(n, 5 * n + 2 * (i - 1), Some(X(n, i)), true, After(n, i))
  }

  lemma {:induction false} Phase1(n: nat, i: nat)
    requires i <= n
    ensures Run(Init(n), Events1(n, i)) == Pool1(n, i)
  {
    if i > 0 {
      Phase1(n, i - 1);
      Round1Runs(n, i);
      RunConcat(Init(n), Events1(n, i - 1), Scanning(n, 2 * (i - 1), None, false, i));
    }
  }

  lemma {:induction false} Phase2(n: nat, i: nat)
    requires i <= n
    ensures Run(Pool1(n, n), Events2(i)) == Pool2(n, i)
  {
    if i > 0 {
      Phase2(n, i - 1);
      Round2Runs(n, i);
      Then(Pool1(n, n), Events2(i - 1), Submit(Lease(i)));
    }
  }

  lemma {:induction false} Phase3(n: nat, i: nat)
    requires i <= n
    ensures Run(Pool2(n, n), Events3(i)) == Pool3(n, i)
  {
    if i > 0 {
      Phase3(n, i - 1);
      Round3Runs(n, i);
      RunConcat(Pool2(n, n), Events3(i - 1), Starting(i));
    }
  }

  lemma {:induction false} Phase4(n: nat, i: nat)
    requires n >= 2 && i <= n
    ensures Run(Pool3(n, n), Events4(n, i)) == Pool4(n, i)
  {
    if i > 0 {
      Phase4(n, i - 1);
      Round4Runs(n, i);
      RunConcat(Pool3(n, n), Events4(n, i - 1), Scanning(n, 5 * n + 2 * (i - 1), Some(X(n, i)), true, After(n, i)));
    }
  }

  function Deadlock(n: nat): seq<Event> {
    Events1(n, n) + Events2(n) + Events3(n) + Events4(n, n)
  }

  lemma {:induction false} DeadlockRuns(n: nat)
    requires n >= 2
    ensures Run(Init(n), Deadlock(n)) == Pool4(n, n)
  {
    var a, b, c := Events1(n, n), Events2(n), Events3(n);
    Phase1(n, n);
    Phase2(n, n);
    RunConcat(Init(n), a, b);
    Phase3(n, n);
    RunConcat(Init(n), a + b, c);
    Phase4(n, n);
    RunConcat(Init(n), a + b + c, Events4(n, n));
  }

  /** Lanes 1 to n and back to 1. */
  function Ring(n: nat): seq<nat>
    requires n > 0
  {
    seq(n + 1, i requires 0 <= i <= n => if i < n then i + 1 else 1)
  }

  lemma {:induction false} Waiting(n: nat, j: nat)
    requires n >= 2 && 1 <= j <= n
    ensures WaitGraph.Waits(Pool4(n, n), j, After(n, j))
  {
    Shape4(n, n, j);
    Shape2(n, n, j);
    assert WaitGraph.Via(Pool4(n, n), NestedLease(n, j), j, After(n, j));
  }

  /** With two or more lanes, a run after which all loops wait, each for the next. */
  lemma {:induction false} WaitCycle(n: nat)
    requires n >= 2
    ensures WaitGraph.Path(Run(Init(n), Deadlock(n)), Ring(n))
  {
    DeadlockRuns(n);
    var p, ring := Pool4(n, n), Ring(n);
    forall i, j | 0 <= i && j == i + 1 && j < |ring|
      ensures WaitGraph.Waits(p, ring[i], ring[j])
    {
      Waiting(n, j);
    }
  }

  ghost predicate Cycle(n: nat, es: seq<Event>, path: seq<nat>) {
    |path| >= 2 && path[0] == path[|path| - 1] && WaitGraph.Path(Run(Init(n), es), path)
  }

  /** Of the pools with at least one configured lane, exactly those with a single
      lane never close a wait cycle. */
  lemma {:induction false} AcyclicIffOneLane(n: nat)
    requires n > 0
    ensures n == 1 <==> !exists es, path :: Cycle(n, es, path)
  {
    if n == 1 {
      forall es, path | |path| >= 2 && WaitGraph.Path(Run(Init(1), es), path)
        ensures path[0] != path[|path| - 1]
      {
        WaitGraph.NoWaitCycleInAnyRun(es, path);
      }
    } else {
      WaitCycle(n);
      assert Cycle(n, Deadlock(n), Ring(n));
    }
  }

  // ---- the selector makes these choices

  /** The lanes as `_select_slot` reads them for a scope entered by `who`. */
  function LanesSeen(p: Pool, who: Option<nat>, on: bool): seq<LaneSelection.Lane> {
    seq(|p.lanes|, i requires 0 <= i < |p.lanes| =>
      LaneSelection.Lane(PressureOf(p, p.lanes[i]), !Eligible(p, who, on, p.lanes[i])))
  }

  function PressureOf(p: Pool, s: nat): nat {
    if s in p.slots && Slots.Pressure(p.slots[s]) >= 0 then Slots.Pressure(p.slots[s]) else 0
  }

  /** The external leases go round the lanes once, bringing the cursor back... */
  lemma {:induction false} LeasesAreSelected(n: nat, i: nat)
    requires 1 <= i <= n
    ensures |LanesSeen(Pool1(n, i - 1), None, false)| == n
    ensures LaneSelection.IsBest(LanesSeen(Pool1(n, i - 1), None, false), i - 1, i - 1)
    ensures LaneSelection.Next(i - 1, n) == if i < n then i else 0
  {
    var p := Pool1(n, i - 1);
    Shape1(n, i - 1, i);
    var lanes := LanesSeen(p, None, false);
    forall j | 0 <= j < n
      ensures lanes[j] == LaneSelection.Lane(if j < i - 1 then 1 else 0, false)
    {
      Shape1(n, i - 1, j + 1);
      assert p.lanes[j] == j + 1;
    }
  }

  lemma {:induction false} LoadOf(n: nat, i: nat, s: nat)
    requires n >= 2 && 1 <= i <= n && 1 <= s <= n
    ensures var p := Pool4(n, i - 1);
            p.lanes == Init(n).lanes && s in p.slots && AtWork(p.slots[s], s) && PressureOf(p, s) == if 2 <= s <= i then 3 else 2
  {
    Shape4(n, i - 1, s);
  }

  lemma {:induction false} SeenByScope(n: nat, i: nat, j: nat)
    requires n >= 2 && 1 <= i <= n && j < n
    ensures var lanes := LanesSeen(Pool4(n, i - 1), Some(X(n, i)), true);
            |lanes| == n && lanes[j] == LaneSelection.Lane(if 1 <= j < i then 3 else 2, j == i - 1)
  {
    LoadOf(n, i, j + 1);
    Entering(n, i);
    CandidateAtWork(Pool4(n, i - 1), X(n, i), i, j + 1);
    assert Init(n).lanes[j] == j + 1;
  }

  lemma {:induction false} NeighbourIsBest(lanes: seq<LaneSelection.Lane>, i: nat)
    requires |lanes| >= 2 && 1 <= i <= |lanes|
    requires forall j :: 0 <= j < |lanes| ==> lanes[j] == LaneSelection.Lane(if 1 <= j < i then 3 else 2, j == i - 1)
    ensures LaneSelection.IsBest(lanes, if i == 1 || i == |lanes| then 0 else i, After(|lanes|, i) - 1)
  {
  }

  /** ... and then every scope is given its neighbour: at first by the cursor, in the
      end because its neighbour is the one lane nobody waits for. */
  lemma {:induction false} ScopesAreSelected(n: nat, i: nat)
    requires n >= 2 && 1 <= i <= n
    ensures |LanesSeen(Pool4(n, i - 1), Some(X(n, i)), true)| == n
    ensures var cursor := if i == 1 || i == n then 0 else i;
            LaneSelection.IsBest(LanesSeen(Pool4(n, i - 1), Some(X(n, i)), true), cursor, After(n, i) - 1)
    ensures i < n ==> LaneSelection.Next(After(n, i) - 1, n) == if i + 1 == n then 0 else i + 1
  {
    var lanes := LanesSeen(Pool4(n, i - 1), Some(X(n, i)), true);
    SeenByScope(n, i, 0);
    forall j | 0 <= j < n
      ensures lanes[j] == LaneSelection.Lane(if 1 <= j < i then 3 else 2, j == i - 1)
    {
      SeenByScope(n, i, j);
    }
    NeighbourIsBest(lanes, i);
  }
}
