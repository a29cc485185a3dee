/**
  The carrier pool: configured lanes, temporary escape lanes, and the execution
  lineage that keeps synchronous waits from closing a cycle.  Reading a lane
  while selecting, choosing, and leasing are separate critical sections, as they
  are in `_RuntimeCarrier`; any other event may happen between them.
 */
module CarrierPool {
  import opened Common
  import Slots

  type Slot = Slots.Slot

  /** `_ExecutionContext`: where the work runs and the generations blocked
      upstream of it, in the order in which they were blocked.  The source keeps
      the set of them. */
  datatype Ctx = Ctx(slot: nat, gen: nat, lineage: seq<nat>)

  /** A call of `acquire_lease` in progress: the lanes read so far and the ones
      kept as candidates, then the chosen lane. */
  datatype Scan = Scan(who: Option<nat>, blocking: bool, sync: bool, seen: nat, kept: set<nat>, chosen: Option<nat>)

  /** A Stage bound to the carrier.  `waiter` is the execution whose event loop
      is blocked until the epoch ends. */
  datatype Epoch = Epoch(ctx: Ctx, waiter: Option<nat>)

  datatype Pool = Pool(
    lanes: seq<nat>,
    escapes: set<nat>,
    slots: map<nat, Slot>,
    slotCounter: nat,
    counter: nat,
    tokens: nat,
    ctxs: map<nat, Ctx>,
    alive: set<nat>,
    epochs: map<nat, Epoch>,
    scans: map<nat, Scan>,
    base: map<nat, set<nat>>)

  datatype Event =
    | Acquire(who: Option<nat>, sync: bool, onLoop: bool)
    | ReadLane(scan: nat)
    | Choose(scan: nat, lane: nat)
    | TakeLease(scan: nat)
    | Submit(epoch: nat)
    | Spawn(exec: nat)
    | EndExec(exec: nat)
    | EndEpoch(epoch: nat)
    | Loop(slot: nat, e: Slots.Event)
    | Retire(slot: nat)

  function Init(lanes: nat): Pool {
    var ids := seq(lanes, i requires 0 <= i < lanes => i + 1);
    Pool(ids, {}, map s | s in ids :: Slots.EMPTY, lanes, 0, 0, map[], {}, map[], map[], map[])
  }

  /** `owns_any_generation_id`, negated.  A generation leaves its lane when it closes. */
  predicate Clear(s: Slot, lineage: seq<nat>) {
    forall b <- lineage :: Slots.GenOf(s, b).None?
  }

  predicate OwnsLoop(s: Slot, gen: nat) {
    Slots.GenOf(s, gen).Some? && Slots.GenOf(s, gen).value.live
  }

  /** One critical section on lane `s`. */
  function Apply(p: Pool, s: nat, e: Slots.Event): Pool
    requires s in p.slots
  {
    Replace(p, s, Slots.Step(p.slots[s], e))
  }

  function Replace(p: Pool, s: nat, t: Slot): Pool {
    p.(slots := p.slots[s := t], counter := Max(p.counter, t.top), tokens := p.tokens + 1)
  }

  function Pinned(p: Pool, c: Ctx, kind: Slots.Kind): Slots.Event {
    Slots.Reserve(Some(c.gen), p.counter + 1, kind, p.tokens)
  }

  predicate CanPin(p: Pool, c: Ctx) {
    c.slot in p.slots && Slots.Granted(p.slots[c.slot], Some(c.gen), p.counter + 1).Some?
  }

  function Unpinned(p: Pool): Slots.Event {
    Slots.Reserve(None, p.counter + 1, Slots.Lease, p.tokens)
  }

  /** `blocked_generation_ids_for_submission`. */
  function LineageFor(p: Pool, q: Scan, gen: nat): seq<nat> {
    if q.who.None? || q.who.value !in p.ctxs then []
    else
      var c := p.ctxs[q.who.value];
      if q.sync && gen != c.gen then c.lineage + [c.gen] else c.lineage
  }

  predicate Enabled(p: Pool, ev: Event) {
    match ev
    case Acquire(who, sync, onLoop) =>
      (who.Some? ==> who.value in p.ctxs) && (onLoop ==> who.Some? && who.value in p.alive)
    case ReadLane(t) => t in p.scans && p.scans[t].chosen.None? && p.scans[t].seen < |p.lanes|
    case Choose(t, lane) =>
      && t in p.scans && p.scans[t].chosen.None? && p.scans[t].seen >= |p.lanes|
      && (p.scans[t].kept != {} ==> lane in p.scans[t].kept)
    case TakeLease(t) =>
      && t in p.scans && p.scans[t].chosen.Some? && p.scans[t].chosen.value in p.slots
      && Slots.Granted(p.slots[p.scans[t].chosen.value], None, p.counter + 1).Some?
    case Submit(k) => k in p.epochs && CanPin(p, p.epochs[k].ctx)
    case Spawn(x) =>
      && x in p.alive && x in p.ctxs && p.ctxs[x].slot in p.slots
      && Slots.Enabled(p.slots[p.ctxs[x].slot], Slots.Retain(p.ctxs[x].gen, p.tokens))
    case EndExec(x) => x in p.alive && x in p.ctxs && p.ctxs[x].slot in p.slots && !Waiting(p, x)
    case EndEpoch(k) => k in p.epochs && p.epochs[k].ctx.slot in p.slots
    case Loop(s, e) => s in p.slots && (e.Begin? || e.Start? || e.Drain? || e.Close?) && Slots.Enabled(p.slots[s], e)
    case Retire(s) => s in p.escapes && s in p.slots && p.slots[s].current.None? && p.slots[s].top > 0
  }

  /** Execution `x` is stuck in a synchronous scope, or about to be. */
  predicate Waiting(p: Pool, x: nat) {
    || (exists k <- p.epochs :: p.epochs[k].waiter == Some(x))
    || (exists t <- p.scans :: p.scans[t].blocking && p.scans[t].who == Some(x))
  }

  /** A submission releases its reservation as a submission, a descendant task as a task. */
  function Ending(p: Pool, x: nat): Slots.Event
    requires x in p.ctxs && p.ctxs[x].slot in p.slots
  {
    var c := p.ctxs[x];
    var g := Slots.GenOf(p.slots[c.slot], c.gen);
    if g.Some? && x in g.value.running then Slots.FinishSubmission(c.gen, x) else Slots.TaskDone(c.gen, x)
  }

  /** `acquire_lease` up to its first reading of the lanes. */
  function Acquired(p: Pool, who: Option<nat>, sync: bool, onLoop: bool): Pool
    requires who.Some? ==> who.value in p.ctxs
  {
    if who.Some? && p.ctxs[who.value].gen !in p.ctxs[who.value].lineage && !(sync && onLoop) && CanPin(p, p.ctxs[who.value])
    then Bound(p, p.ctxs[who.value])
    else p.(scans := p.scans[p.tokens := Scan(who, sync && onLoop, sync, 0, {}, None)], tokens := p.tokens + 1)
  }

  /** The inherited generation is leased again. */
  function Bound(p: Pool, c: Ctx): Pool
    requires c.slot in p.slots
  {
    var r := Apply(p, c.slot, Pinned(p, c, Slots.Lease));
    r.(epochs := r.epochs[p.tokens := Epoch(c, None)])
  }

  /** The candidate test of `_select_slot`: the lane owns no generation blocked upstream
      and, for a scope that blocks its loop, not that loop either. */
  predicate Eligible(p: Pool, who: Option<nat>, blocking: bool, lane: nat) {
    && lane in p.slots
    && (who.Some? && who.value in p.ctxs ==>
          && Clear(p.slots[lane], p.ctxs[who.value].lineage)
          && !(blocking && OwnsLoop(p.slots[lane], p.ctxs[who.value].gen)))
  }

  /** One iteration of the candidate loop of `_select_slot`. */
  function Read(p: Pool, t: nat): Pool
    requires t in p.scans && p.scans[t].seen < |p.lanes|
  {
    var q := p.scans[t];
    var lane := p.lanes[q.seen];
    p.(scans := p.scans[t := q.(seen := q.seen + 1, kept := if Eligible(p, q.who, q.blocking, lane) then q.kept + {lane} else q.kept)])
  }

  /** The end of `_select_slot`; which candidate wins is left open here. */
  function Chosen(p: Pool, t: nat, lane: nat): Pool
    requires t in p.scans
  {
    if p.scans[t].kept == {} then Escaped(p, t, p.slotCounter + 1)
    else p.(scans := p.scans[t := p.scans[t].(chosen := Some(lane))])
  }

  /** No lane is eligible: a new one is opened for this scope alone. */
  function Escaped(p: Pool, t: nat, s: nat): Pool
    requires t in p.scans
  {
    p.(slotCounter := s, escapes := p.escapes + {s}, slots := p.slots[s := Slots.EMPTY],
    scans := p.scans[t := p.scans[t].(chosen := Some(s))])
  }

  /** The lease on the chosen lane, and the epoch it opens. */
  function Leased(p: Pool, t: nat): Pool
    requires t in p.scans && p.scans[t].chosen.Some? && p.scans[t].chosen.value in p.slots
  {
    var q := p.scans[t];
    var s := q.chosen.value;
    var e := NewEpoch(p, q, s);
    var r := Apply(p.(scans := p.scans - {t}), s, Unpinned(p));
    r.(
    epochs := r.epochs[p.tokens := e],
    base := if s in p.escapes then r.base[e.ctx.gen := Elems(e.ctx.lineage)] else r.base)
  }

  function NewEpoch(p: Pool, q: Scan, s: nat): Epoch
    requires s in p.slots
  {
    var g := Slots.Granted(p.slots[s], None, p.counter + 1);
    var gen := if g.Some? then g.value else 0;
    Epoch(Ctx(s, gen, LineageFor(p, q, gen)), if q.blocking then q.who else None)
  }

  function Submitted(p: Pool, c: Ctx): Pool
    requires c.slot in p.slots
  {
    Apply(p.(ctxs := p.ctxs[p.tokens := c]), c.slot, Pinned(p, c, Slots.Submission))
  }

  function Spawned(p: Pool, c: Ctx): Pool
    requires c.slot in p.slots
  {
    var r := Apply(p.(ctxs := p.ctxs[p.tokens := c]), c.slot, Slots.Retain(c.gen, p.tokens));
    r.(alive := r.alive + {p.tokens})
  }

  function Ended(p: Pool, x: nat): Pool
    requires x in p.ctxs && p.ctxs[x].slot in p.slots
  {
    Apply(p.(alive := p.alive - {x}), p.ctxs[x].slot, Ending(p, x))
  }

  function Unbound(p: Pool, k: nat): Pool
    requires k in p.epochs && p.epochs[k].ctx.slot in p.slots
  {
    Apply(p.(epochs := p.epochs - {k}), p.epochs[k].ctx.slot, Slots.ReleaseLease(p.epochs[k].ctx.gen, k))
  }

  function Looped(p: Pool, s: nat, e: Slots.Event): Pool
    requires s in p.slots
  {
    var q := Apply(p, s, e);
    if e.Begin? && Slots.Enabled(p.slots[s], e) then q.(alive := q.alive + {Slots.GenOf(p.slots[s], e.id).value.ready[0]}) else q
  }

  function Step(p: Pool, ev: Event): Pool {
    if !Enabled(p, ev) then p else
    match ev
    case Acquire(who, sync, onLoop) => Acquired(p, who, sync, onLoop)
    case ReadLane(t) => Read(p, t)
    case Choose(t, lane) => Chosen(p, t, lane)
    case TakeLease(t) => Leased(p, t)
    case Submit(k) => Submitted(p, p.epochs[k].ctx)
    case Spawn(x) => Spawned(p, p.ctxs[x])
    case EndExec(x) => Ended(p, x)
    case EndEpoch(k) => Unbound(p, k)
    case Loop(s, e) => Looped(p, s, e)
    case Retire(s) => p.(escapes := p.escapes - {s}, slots := p.slots - {s})
  }

  function Run(p: Pool, es: seq<Event>): Pool
    decreases |es|
  {
    if es == [] then p else Run(Step(p, es[0]), es[1..])
  }

  lemma {:induction false} RunConcat(p: Pool, es: seq<Event>, fs: seq<Event>)
    ensures Run(p, es + fs) == Run(Run(p, es), fs)
    decreases |es|
  {
    if es == [] {
      assert es + fs == fs;
    } else {
      assert (es + fs)[0] == es[0] && (es + fs)[1..] == es[1..] + fs;
      RunConcat(Step(p, es[0]), es[1..], fs);
    }
  }

  // ------------------------------------------------------------ invariant
  // Each clause is a predicate of the fields it speaks about, so that a step
  // that leaves those fields alone keeps it for free.

  ghost predicate LanesOk(lanes: seq<nat>, escapes: set<nat>, keys: set<nat>, slotCounter: nat) {
    && (forall s <- lanes :: s in keys && s !in escapes)
    && (forall s <- escapes :: s in keys)
    && (forall s <- keys :: s <= slotCounter && (s in lanes || s in escapes))
  }

  ghost predicate SlotOk(s: Slot, counter: nat, tokens: nat) {
    Slots.Inv(s) && s.top <= counter && (forall t <- s.used :: t < tokens)
  }

  ghost predicate SlotsOk(slots: map<nat, Slot>, counter: nat, tokens: nat) {
    && (forall s <- slots :: SlotOk(slots[s], counter, tokens))
    && (forall s, t, id | s in slots && t in slots && Slots.GenOf(slots[s], id).Some? && Slots.GenOf(slots[t], id).Some? :: s == t)
  }

  /** A context never runs on a generation blocked upstream of it, and no
      generation is blocked twice along one lineage. */
  ghost predicate CtxOk(c: Ctx, counter: nat) {
    && c.gen <= counter
    && (forall b <- c.lineage :: b <= counter)
    && c.gen !in c.lineage
    && NoDup(c.lineage)
  }

  ghost predicate CtxsOk(ctxs: map<nat, Ctx>, counter: nat) {
    forall x <- ctxs :: CtxOk(ctxs[x], counter)
  }

  ghost predicate EpochCtxsOk(epochs: map<nat, Epoch>, counter: nat) {
    forall k <- epochs :: CtxOk(epochs[k].ctx, counter)
  }

  ghost predicate LaneOk(slots: map<nat, Slot>, ctxs: map<nat, Ctx>, q: Scan, s: nat) {
    && s in slots
    && (q.who.Some? ==> q.who.value in ctxs && Clear(slots[s], ctxs[q.who.value].lineage))
    && (q.blocking ==> q.who.Some? && ctxs[q.who.value].slot != s)
  }

  ghost predicate ScanOk(lanes: seq<nat>, escapes: set<nat>, slots: map<nat, Slot>, ctxs: map<nat, Ctx>, alive: set<nat>, q: Scan) {
    && (q.who.Some? ==> q.who.value in ctxs)
    && (q.blocking ==> q.sync && q.who.Some? && q.who.value in alive)
    && (forall s <- q.kept :: s in lanes && LaneOk(slots, ctxs, q, s))
    && (q.chosen.Some? ==>
          && LaneOk(slots, ctxs, q, q.chosen.value)
          && (q.chosen.value in escapes ==> slots[q.chosen.value] == Slots.EMPTY))
  }

  ghost predicate ScansOk(lanes: seq<nat>, escapes: set<nat>, slots: map<nat, Slot>, ctxs: map<nat, Ctx>, alive: set<nat>, scans: map<nat, Scan>) {
    && (forall t <- scans :: ScanOk(lanes, escapes, slots, ctxs, alive, scans[t]))
    && (forall t, u | t in scans && u in scans && scans[t].chosen.Some? && scans[t].chosen == scans[u].chosen
                      && scans[t].chosen.value in escapes :: t == u)
  }

  ghost predicate Executing(s: Slot, gen: nat, x: nat) {
    && s.current.Some? && s.current.value.id == gen
    && (x in s.current.value.running || x in s.current.value.tasks)
  }

  ghost predicate ExecsOk(slots: map<nat, Slot>, ctxs: map<nat, Ctx>, alive: set<nat>) {
    forall x <- alive :: x in ctxs && ctxs[x].slot in slots && Executing(slots[ctxs[x].slot], ctxs[x].gen, x)
  }

  ghost predicate LeasesOk(slots: map<nat, Slot>, epochs: map<nat, Epoch>) {
    forall k <- epochs :: epochs[k].ctx.slot in slots && Slots.Leased(slots[epochs[k].ctx.slot], epochs[k].ctx.gen, k)
  }

  ghost predicate Names(ctxs: map<nat, Ctx>, s: nat, id: nat, accepted: seq<nat>) {
    forall x <- accepted :: x in ctxs && ctxs[x].slot == s && ctxs[x].gen == id
  }

  /** What a generation has accepted is recorded with that lane and generation. */
  ghost predicate AcceptedOk(ctxs: map<nat, Ctx>, s: nat, t: Slot) {
    && (t.current.Some? ==> Names(ctxs, s, t.current.value.id, t.current.value.accepted))
    && (t.next.Some? ==> Names(ctxs, s, t.next.value.id, t.next.value.accepted))
  }

  ghost predicate AcceptsOk(slots: map<nat, Slot>, ctxs: map<nat, Ctx>) {
    forall s <- slots :: AcceptedOk(ctxs, s, slots[s])
  }

  /** Escape lanes serve one generation each, and those are the keys of `base`. */
  ghost predicate EscapesOk(lanes: seq<nat>, escapes: set<nat>, slots: map<nat, Slot>, base: map<nat, set<nat>>) {
    && (forall s <- escapes :: s in slots && slots[s].next.None? && (slots[s].current.Some? ==> slots[s].current.value.id in base))
    && (forall s, id | s in lanes && s in slots && Slots.GenOf(slots[s], id).Some? :: id !in base)
  }

  ghost predicate BaseOk(base: map<nat, set<nat>>, counter: nat) {
    forall id <- base :: id <= counter && (forall b <- base[id] :: b < id)
  }

  /** All work on an escape generation has the same blocked set. */
  ghost predicate Based(c: Ctx, base: map<nat, set<nat>>) {
    c.gen in base ==> Elems(c.lineage) == base[c.gen]
  }

  ghost predicate BasedOk(ctxs: map<nat, Ctx>, epochs: map<nat, Epoch>, base: map<nat, set<nat>>) {
    (forall x <- ctxs :: Based(ctxs[x], base)) && (forall k <- epochs :: Based(epochs[k].ctx, base))
  }

  /** A blocked loop waits on another lane, whose work is blocked on it in turn. */
  ghost predicate WaitOk(ctxs: map<nat, Ctx>, alive: set<nat>, e: Epoch) {
    e.waiter.Some? ==>
      && e.waiter.value in ctxs && e.waiter.value in alive
      && ctxs[e.waiter.value].slot != e.ctx.slot
      && e.ctx.lineage == ctxs[e.waiter.value].lineage + [ctxs[e.waiter.value].gen]
  }

  ghost predicate WaitsOk(ctxs: map<nat, Ctx>, alive: set<nat>, epochs: map<nat, Epoch>) {
    forall k <- epochs :: WaitOk(ctxs, alive, epochs[k])
  }

  ghost predicate Inv(p: Pool) {
    Core(p) && CtxNames(p.ctxs, p.tokens)
  }

  /** Contexts are named by tokens handed out so far. */
  ghost predicate CtxNames(ctxs: map<nat, Ctx>, tokens: nat) {
    forall x <- ctxs :: x < tokens
  }

  ghost predicate Core(p: Pool) {
    && LanesOk(p.lanes, p.escapes, p.slots.Keys, p.slotCounter)
    && SlotsOk(p.slots, p.counter, p.tokens)
    && CtxsOk(p.ctxs, p.counter)
    && EpochCtxsOk(p.epochs, p.counter)
    && ScansOk(p.lanes, p.escapes, p.slots, p.ctxs, p.alive, p.scans)
    && ExecsOk(p.slots, p.ctxs, p.alive)
    && LeasesOk(p.slots, p.epochs)
    && AcceptsOk(p.slots, p.ctxs)
    && EscapesOk(p.lanes, p.escapes, p.slots, p.base)
    && BaseOk(p.base, p.counter)
    && BasedOk(p.ctxs, p.epochs, p.base)
    && WaitsOk(p.ctxs, p.alive, p.epochs)
  }

  // ------------------------------------------- one critical section on a lane

  lemma IdsStep(s: Slot, e: Slots.Event, id: nat)
    requires Slots.Inv(s) && Slots.GenOf(Slots.Step(s, e), id).Some?
    ensures Slots.GenOf(s, id).Some? || (e.Reserve? && id == e.newId && Slots.Granted(s, e.preferred, e.newId) == Some(id))
  {
    if Slots.Enabled(s, e) && e.Reserve? && Slots.Pick(s, e.preferred, e.newId).Some? {
      Slots.PickFacts(s, e.preferred, e.newId);
      Slots.ReserveAt(s, e, id);
    }
  }

  lemma BoundsStep(s: Slot, e: Slots.Event)
    ensures Slots.Step(s, e).top == s.top || (e.Reserve? && s.top < e.newId && Slots.Step(s, e).top == e.newId)
    ensures forall t <- Slots.Step(s, e).used :: t in s.used || ((e.Reserve? || e.Retain?) && t == e.tok)
  {
  }

  lemma ExecMoves(s: Slot, e: Slots.Event, g: Slots.Gen, o: Option<Slots.Gen>, x: nat)
    requires Slots.GenInv(g, s.used) && Slots.Moves(s, e, g, o) && (x in g.running || x in g.tasks)
    requires e != Slots.FinishSubmission(g.id, x) && e != Slots.TaskDone(g.id, x)
    requires (e.FinishSubmission? || e.TaskDone?) && Slots.Target(s, e) == Some(g) ==> e.id == g.id
    ensures g.live && g.state == Slots.Open && o.Some? && (x in o.value.running || x in o.value.tasks)
  {
    assert g.running != {} || g.tasks != {};
  }

  lemma ExecStep(s: Slot, e: Slots.Event, gen: nat, x: nat)
    requires Slots.Inv(s) && Executing(s, gen, x)
    requires e != Slots.FinishSubmission(gen, x) && e != Slots.TaskDone(gen, x)
    ensures Executing(Slots.Step(s, e), gen, x)
  {
    Slots.StepOnGen(s, e, gen);
    ExecMoves(s, e, s.current.value, Slots.GenOf(Slots.Step(s, e), gen), x);
    CurrentStays(s, e);
  }

  lemma CurrentStays(s: Slot, e: Slots.Event)
    requires s.current.Some? && s.current.value.state != Slots.Draining
    ensures Slots.Step(s, e).current.Some? && Slots.Step(s, e).current.value.id == s.current.value.id
  {
  }

  function AcceptedBy(s: Slot, id: nat): seq<nat> {
    if Slots.GenOf(s, id).Some? then Slots.GenOf(s, id).value.accepted else []
  }

  lemma AcceptedStep(s: Slot, e: Slots.Event, id: nat)
    requires Slots.Inv(s) && Slots.GenOf(Slots.Step(s, e), id).Some?
    ensures var now := Slots.GenOf(Slots.Step(s, e), id).value.accepted;
            || now == AcceptedBy(s, id)
            || (e.Reserve? && e.kind == Slots.Submission && now == AcceptedBy(s, id) + [e.tok] && Slots.Granted(s, e.preferred, e.newId) == Some(id))
  {
    if !e.Reserve? {
      IdsStep(s, e, id);
      Slots.StepOnGen(s, e, id);
    } else if Slots.Enabled(s, e) && Slots.Pick(s, e.preferred, e.newId).Some? {
      Slots.PickFacts(s, e.preferred, e.newId);
      Slots.ReserveAt(s, e, id);
    }
  }

  lemma EscapeStep(s: Slot, e: Slots.Event)
    requires s.next.None? && (e.Reserve? ==> e.preferred.Some?)
    ensures var t := Slots.Step(s, e);
            && t.next.None? && (t.current.Some? ==> s.current.Some? && t.current.value.id == s.current.value.id)
            && (s == Slots.EMPTY ==> t == s)
  {
  }

  /** `b` is what a critical section may make of lane `a`. */
  ghost predicate Succ(counter: nat, tokens: nat, a: Slot, b: Slot) {
    && SlotOk(b, Max(counter, b.top), tokens + 1)
    && b.top <= counter + 1
    && (forall id :: Slots.GenOf(b, id).Some? ==> Slots.GenOf(a, id).Some? || id == counter + 1 == b.top)
  }

  ghost predicate Named(p: Pool, e: Slots.Event) {
    (e.Reserve? ==> e.newId == p.counter + 1) && (e.Reserve? || e.Retain? ==> e.tok == p.tokens)
  }

  lemma StepSucc(p: Pool, a: Slot, e: Slots.Event)
    requires SlotOk(a, p.counter, p.tokens) && Named(p, e)
    ensures Succ(p.counter, p.tokens, a, Slots.Step(a, e))
  {
    var b := Slots.Step(a, e);
    Slots.StepKeepsInv(a, e);
    BoundsStep(a, e);
    forall id | Slots.GenOf(b, id).Some?
      ensures Slots.GenOf(a, id).Some? || id == p.counter + 1 == b.top
    {
      IdsStep(a, e, id);
    }
  }

  lemma ReplaceSlots(slots: map<nat, Slot>, counter: nat, tokens: nat, s: nat, t: Slot)
    requires SlotsOk(slots, counter, tokens) && s in slots && Succ(counter, tokens, slots[s], t)
    ensures SlotsOk(slots[s := t], Max(counter, t.top), tokens + 1)
  {
    assert forall r <- slots :: slots[r].top <= counter && Slots.Inv(slots[r]);
  }

  lemma ReplaceScans(p: Pool, s: nat, t: Slot)
    requires Core(p) && s in p.slots && Succ(p.counter, p.tokens, p.slots[s], t)
    requires s in p.escapes && p.slots[s] == Slots.EMPTY ==> t == Slots.EMPTY || (forall k <- p.scans :: p.scans[k].chosen != Some(s))
    ensures ScansOk(p.lanes, p.escapes, p.slots[s := t], p.ctxs, p.alive, p.scans)
  {
    forall k | k in p.scans
      ensures ScanOk(p.lanes, p.escapes, p.slots[s := t], p.ctxs, p.alive, p.scans[k])
    {
      var q := p.scans[k];
      assert ScanOk(p.lanes, p.escapes, p.slots, p.ctxs, p.alive, q);
      if q.who.Some? {
        var lin := p.ctxs[q.who.value].lineage;
        assert CtxOk(p.ctxs[q.who.value], p.counter);
        assert Clear(p.slots[s], lin) ==> Clear(t, lin);
      }
      assert forall r :: LaneOk(p.slots, p.ctxs, q, r) ==> LaneOk(p.slots[s := t], p.ctxs, q, r);
    }
  }

  lemma ReplaceEscapes(p: Pool, s: nat, t: Slot)
    requires LanesOk(p.lanes, p.escapes, p.slots.Keys, p.slotCounter) && BaseOk(p.base, p.counter)
    requires EscapesOk(p.lanes, p.escapes, p.slots, p.base) && s in p.slots && Succ(p.counter, p.tokens, p.slots[s], t)
    requires s in p.escapes ==> t.next.None? && (t.current.Some? ==> t.current.value.id in p.base)
    ensures EscapesOk(p.lanes, p.escapes, p.slots[s := t], p.base)
  {
  }

  lemma GrowCounter(p: Pool, n: nat)
    requires Core(p) && p.counter <= n
    ensures CtxsOk(p.ctxs, n) && EpochCtxsOk(p.epochs, n) && BaseOk(p.base, n)
  {
  }

  /** What a critical section on lane `s` must leave in place for the work still recorded. */
  ghost predicate Kept(p: Pool, s: nat, t: Slot) {
    && (forall x <- p.alive :: x in p.ctxs && (p.ctxs[x].slot == s ==> Executing(t, p.ctxs[x].gen, x)))
    && (forall k <- p.epochs :: p.epochs[k].ctx.slot == s ==> Slots.Leased(t, p.epochs[k].ctx.gen, k))
    && AcceptedOk(p.ctxs, s, t)
  }

  lemma ReplaceHolders(p: Pool, s: nat, t: Slot)
    requires Core(p) && s in p.slots && Kept(p, s, t)
    ensures ExecsOk(p.slots[s := t], p.ctxs, p.alive) && LeasesOk(p.slots[s := t], p.epochs) && AcceptsOk(p.slots[s := t], p.ctxs)
  {
  }

  lemma StepKeepsExecs(slots: map<nat, Slot>, ctxs: map<nat, Ctx>, alive: set<nat>, s: nat, e: Slots.Event)
    requires ExecsOk(slots, ctxs, alive) && s in slots && Slots.Inv(slots[s])
    requires e.FinishSubmission? || e.TaskDone? ==> e.tok !in alive
    ensures forall x <- alive :: x in ctxs && (ctxs[x].slot == s ==> Executing(Slots.Step(slots[s], e), ctxs[x].gen, x))
  {
    forall x | x in alive && ctxs[x].slot == s
      ensures Executing(Slots.Step(slots[s], e), ctxs[x].gen, x)
    {
      ExecStep(slots[s], e, ctxs[x].gen, x);
    }
  }

  lemma StepKeepsLeases(slots: map<nat, Slot>, epochs: map<nat, Epoch>, s: nat, e: Slots.Event)
    requires LeasesOk(slots, epochs) && s in slots && Slots.Inv(slots[s])
    requires e.ReleaseLease? ==> e.tok !in epochs
    ensures forall k <- epochs :: epochs[k].ctx.slot == s ==> Slots.Leased(Slots.Step(slots[s], e), epochs[k].ctx.gen, k)
  {
    forall k | k in epochs && epochs[k].ctx.slot == s
      ensures Slots.Leased(Slots.Step(slots[s], e), epochs[k].ctx.gen, k)
    {
      Slots.LeaseStep(slots[s], e, epochs[k].ctx.gen, k);
    }
  }

  /** A pinned submission names the generation it was pinned to. */
  ghost predicate Pinning(ctxs: map<nat, Ctx>, s: nat, e: Slots.Event) {
    e.Reserve? && e.kind == Slots.Submission ==>
      e.preferred.Some? && e.tok in ctxs && ctxs[e.tok].slot == s && ctxs[e.tok].gen == e.preferred.value
  }

  lemma NamesStep(ctxs: map<nat, Ctx>, s: nat, a: Slot, e: Slots.Event, id: nat)
    requires Names(ctxs, s, id, AcceptedBy(a, id)) && Slots.Inv(a) && Pinning(ctxs, s, e)
    requires Slots.GenOf(Slots.Step(a, e), id).Some?
    ensures Names(ctxs, s, id, Slots.GenOf(Slots.Step(a, e), id).value.accepted)
  {
    AcceptedStep(a, e, id);
  }

  lemma StepKeepsAccepted(ctxs: map<nat, Ctx>, s: nat, a: Slot, e: Slots.Event)
    requires AcceptedOk(ctxs, s, a) && Slots.Inv(a) && Pinning(ctxs, s, e)
    ensures AcceptedOk(ctxs, s, Slots.Step(a, e))
  {
    var t := Slots.Step(a, e);
    Slots.StepKeepsInv(a, e);
    if t.current.Some? { NamesStep(ctxs, s, a, e, t.current.value.id); }
    if t.next.Some? { NamesStep(ctxs, s, a, e, t.next.value.id); }
  }

  lemma StepKept(p: Pool, s: nat, e: Slots.Event)
    requires Core(p) && s in p.slots && Pinning(p.ctxs, s, e)
    requires e.FinishSubmission? || e.TaskDone? ==> e.tok !in p.alive
    requires e.ReleaseLease? ==> e.tok !in p.epochs
    ensures Kept(p, s, Slots.Step(p.slots[s], e))
  {
    assert SlotOk(p.slots[s], p.counter, p.tokens);
    StepKeepsExecs(p.slots, p.ctxs, p.alive, s, e);
    StepKeepsLeases(p.slots, p.epochs, s, e);
    StepKeepsAccepted(p.ctxs, s, p.slots[s], e);
  }

  lemma ApplyInv(p: Pool, s: nat, e: Slots.Event)
    requires Core(p) && s in p.slots && Named(p, e) && Kept(p, s, Slots.Step(p.slots[s], e))
    requires e.Reserve? ==> e.preferred.Some? || s !in p.escapes
    ensures Core(Apply(p, s, e))
  {
    var a, t := p.slots[s], Slots.Step(p.slots[s], e);
    assert SlotOk(a, p.counter, p.tokens);
    StepSucc(p, a, e);
    if s in p.escapes { EscapeStep(a, e); }
    ReplaceSlots(p.slots, p.counter, p.tokens, s, t);
    ReplaceScans(p, s, t);
    ReplaceEscapes(p, s, t);
    ReplaceHolders(p, s, t);
    GrowCounter(p, Max(p.counter, t.top));
    assert p.slots[s := t].Keys == p.slots.Keys;
  }

  // --------------------------------------------------------------- the events

  /** Recording a context under a new name. */
  lemma AddCtx(p: Pool, x: nat, c: Ctx)
    requires Core(p) && x !in p.ctxs && CtxOk(c, p.counter) && Based(c, p.base)
    ensures Core(p.(ctxs := p.ctxs[x := c]))
  {
    AddCtxScans(p, x, c);
    AddCtxRest(p, x, c);
  }

  lemma AddCtxScans(p: Pool, x: nat, c: Ctx)
    requires ScansOk(p.lanes, p.escapes, p.slots, p.ctxs, p.alive, p.scans) && x !in p.ctxs
    ensures ScansOk(p.lanes, p.escapes, p.slots, p.ctxs[x := c], p.alive, p.scans)
  {
    forall t | t in p.scans
      ensures ScanOk(p.lanes, p.escapes, p.slots, p.ctxs[x := c], p.alive, p.scans[t])
    {
      assert ScanOk(p.lanes, p.escapes, p.slots, p.ctxs, p.alive, p.scans[t]);
    }
  }

  lemma AddCtxRest(p: Pool, x: nat, c: Ctx)
    requires AcceptsOk(p.slots, p.ctxs) && WaitsOk(p.ctxs, p.alive, p.epochs) && ExecsOk(p.slots, p.ctxs, p.alive) && x !in p.ctxs
    ensures AcceptsOk(p.slots, p.ctxs[x := c]) && WaitsOk(p.ctxs[x := c], p.alive, p.epochs) && ExecsOk(p.slots, p.ctxs[x := c], p.alive)
  {
    forall s | s in p.slots
      ensures AcceptedOk(p.ctxs[x := c], s, p.slots[s])
    {
      assert AcceptedOk(p.ctxs, s, p.slots[s]);
    }
    forall k | k in p.epochs
      ensures WaitOk(p.ctxs[x := c], p.alive, p.epochs[k])
    {
      assert WaitOk(p.ctxs, p.alive, p.epochs[k]);
    }
  }

  /** A critical section, whoever it is for, on a pool that already records it. */
  lemma Section(p: Pool, s: nat, e: Slots.Event)
    requires Core(p) && s in p.slots && Named(p, e) && Pinning(p.ctxs, s, e)
    requires e.FinishSubmission? || e.TaskDone? ==> e.tok !in p.alive
    requires e.ReleaseLease? ==> e.tok !in p.epochs
    requires e.Reserve? ==> e.preferred.Some? || s !in p.escapes
    ensures Core(Apply(p, s, e))
  {
    StepKept(p, s, e);
    ApplyInv(p, s, e);
  }

  lemma SubmitKeeps(p: Pool, c: Ctx)
    requires Inv(p) && c.slot in p.slots && CtxOk(c, p.counter) && Based(c, p.base)
    ensures Inv(Submitted(p, c))
  {
    AddCtx(p, p.tokens, c);
    var q := p.(ctxs := p.ctxs[p.tokens := c]);
    Section(q, c.slot, Pinned(p, c, Slots.Submission));
  }

  /** Executions may come, and those that block nothing may go. */
  lemma SetAlive(p: Pool, alive: set<nat>)
    requires Core(p) && ExecsOk(p.slots, p.ctxs, alive)
    requires forall x <- p.alive :: x in alive || !Waiting(p, x)
    ensures Core(p.(alive := alive))
  {
    forall t | t in p.scans
      ensures ScanOk(p.lanes, p.escapes, p.slots, p.ctxs, alive, p.scans[t])
    {
      assert ScanOk(p.lanes, p.escapes, p.slots, p.ctxs, p.alive, p.scans[t]);
    }
    forall k | k in p.epochs
      ensures WaitOk(p.ctxs, alive, p.epochs[k])
    {
      assert WaitOk(p.ctxs, p.alive, p.epochs[k]);
    }
  }

  lemma AddAlive(p: Pool, x: nat)
    requires Core(p) && x in p.ctxs && p.ctxs[x].slot in p.slots && Executing(p.slots[p.ctxs[x].slot], p.ctxs[x].gen, x)
    ensures Core(p.(alive := p.alive + {x}))
  {
    SetAlive(p, p.alive + {x});
  }

  lemma AddEpoch(p: Pool, k: nat, e: Epoch)
    requires Core(p) && EpochFits(p, k, e)
    ensures Core(p.(epochs := p.epochs[k := e]))
  {
    AddEpochParts(p.slots, p.ctxs, p.alive, p.epochs, p.base, p.counter, k, e);
  }

  lemma AddEpochParts(slots: map<nat, Slot>, ctxs: map<nat, Ctx>, alive: set<nat>, epochs: map<nat, Epoch>,
                      base: map<nat, set<nat>>, counter: nat, k: nat, e: Epoch)
    requires EpochCtxsOk(epochs, counter) && LeasesOk(slots, epochs) && BasedOk(ctxs, epochs, base) && WaitsOk(ctxs, alive, epochs)
    requires CtxOk(e.ctx, counter) && e.ctx.slot in slots && Slots.Leased(slots[e.ctx.slot], e.ctx.gen, k)
    requires Based(e.ctx, base) && WaitOk(ctxs, alive, e)
    ensures EpochCtxsOk(epochs[k := e], counter) && LeasesOk(slots, epochs[k := e])
    ensures BasedOk(ctxs, epochs[k := e], base) && WaitsOk(ctxs, alive, epochs[k := e])
  {
  }

  lemma DropEpoch(p: Pool, k: nat)
    requires Core(p)
    ensures Core(p.(epochs := p.epochs - {k}))
  {
  }

  ghost predicate EpochFits(p: Pool, k: nat, e: Epoch) {
    && CtxOk(e.ctx, p.counter)
    && e.ctx.slot in p.slots && Slots.Leased(p.slots[e.ctx.slot], e.ctx.gen, k)
    && Based(e.ctx, p.base)
    && WaitOk(p.ctxs, p.alive, e)
  }

  lemma RetainExecutes(s: Slot, gen: nat, x: nat, tok: nat)
    requires Executing(s, gen, x) && Slots.Enabled(s, Slots.Retain(gen, tok))
    ensures Executing(Slots.Step(s, Slots.Retain(gen, tok)), gen, tok)
  {
  }

  lemma SpawnRecorded(p: Pool, x: nat, r: Pool)
    requires Inv(p) && x in p.alive && x in p.ctxs && p.ctxs[x].slot in p.slots
    requires Slots.Enabled(p.slots[p.ctxs[x].slot], Slots.Retain(p.ctxs[x].gen, p.tokens))
    requires r == Apply(p.(ctxs := p.ctxs[p.tokens := p.ctxs[x]]), p.ctxs[x].slot, Slots.Retain(p.ctxs[x].gen, p.tokens))
    ensures Core(r) && Executing(r.slots[p.ctxs[x].slot], p.ctxs[x].gen, p.tokens)
  {
    var c := p.ctxs[x];
    assert CtxOk(c, p.counter) && Based(c, p.base) && Executing(p.slots[c.slot], c.gen, x);
    AddCtx(p, p.tokens, c);
    Section(p.(ctxs := p.ctxs[p.tokens := c]), c.slot, Slots.Retain(c.gen, p.tokens));
    RetainExecutes(p.slots[c.slot], c.gen, x, p.tokens);
  }

  lemma SpawnKeeps(p: Pool, x: nat)
    requires Inv(p) && x in p.alive && x in p.ctxs && p.ctxs[x].slot in p.slots
    requires Slots.Enabled(p.slots[p.ctxs[x].slot], Slots.Retain(p.ctxs[x].gen, p.tokens))
    ensures Inv(Spawned(p, p.ctxs[x]))
  {
    var r := Apply(p.(ctxs := p.ctxs[p.tokens := p.ctxs[x]]), p.ctxs[x].slot, Slots.Retain(p.ctxs[x].gen, p.tokens));
    SpawnRecorded(p, x, r);
    AddAlive(r, p.tokens);
  }

  lemma EndKeeps(p: Pool, x: nat)
    requires Inv(p) && x in p.ctxs && p.ctxs[x].slot in p.slots && !Waiting(p, x)
    ensures Inv(Ended(p, x))
  {
    SetAlive(p, p.alive - {x});
    Section(p.(alive := p.alive - {x}), p.ctxs[x].slot, Ending(p, x));
  }

  lemma UnbindKeeps(p: Pool, k: nat)
    requires Inv(p) && k in p.epochs && p.epochs[k].ctx.slot in p.slots
    ensures Inv(Unbound(p, k))
  {
    DropEpoch(p, k);
    Section(p.(epochs := p.epochs - {k}), p.epochs[k].ctx.slot, Slots.ReleaseLease(p.epochs[k].ctx.gen, k));
  }

  lemma BeginExecutes(s: Slot, id: nat)
    requires Slots.Inv(s) && Slots.Enabled(s, Slots.Begin(id))
    ensures var x := Slots.GenOf(s, id).value.ready[0];
            Executing(Slots.Step(s, Slots.Begin(id)), id, x) && x in Slots.GenOf(s, id).value.accepted
  {
    var g := Slots.GenOf(s, id).value;
    assert g.live && Some(g) == s.current;
    assert g.accepted[|g.begun|] == g.ready[0];
  }

  lemma BeginRuns(p: Pool, s: nat, id: nat)
    requires Core(p) && s in p.slots && Slots.Enabled(p.slots[s], Slots.Begin(id))
    ensures var x := Slots.GenOf(p.slots[s], id).value.ready[0];
            && x in p.ctxs && p.ctxs[x].slot == s
            && Executing(Slots.Step(p.slots[s], Slots.Begin(id)), p.ctxs[x].gen, x)
  {
    assert SlotOk(p.slots[s], p.counter, p.tokens) && AcceptedOk(p.ctxs, s, p.slots[s]);
    BeginExecutes(p.slots[s], id);
  }

  lemma LoopKeeps(p: Pool, s: nat, e: Slots.Event)
    requires Inv(p) && s in p.slots && (e.Begin? || e.Start? || e.Drain? || e.Close?)
    ensures Inv(Looped(p, s, e))
  {
    Section(p, s, e);
    if e.Begin? && Slots.Enabled(p.slots[s], e) {
      BeginRuns(p, s, e.id);
      AddAlive(Apply(p, s, e), Slots.GenOf(p.slots[s], e.id).value.ready[0]);
    }
  }

  lemma ReserveLeases(s: Slot, e: Slots.Event)
    requires Slots.Inv(s) && e.Reserve? && e.kind == Slots.Lease && Slots.Enabled(s, e) && Slots.Granted(s, e.preferred, e.newId).Some?
    ensures Slots.Leased(Slots.Step(s, e), Slots.Granted(s, e.preferred, e.newId).value, e.tok)
  {
    Slots.ReserveAt(s, e, Slots.Granted(s, e.preferred, e.newId).value);
  }

  lemma BindFits(p: Pool, c: Ctx, r: Pool)
    requires CtxOk(c, p.counter) && p.counter <= r.counter && Based(c, r.base)
    requires c.slot in r.slots && Slots.Leased(r.slots[c.slot], c.gen, p.tokens)
    ensures EpochFits(r, p.tokens, Epoch(c, None))
  {
  }

  lemma BindReady(p: Pool, x: nat)
    requires Inv(p) && x in p.ctxs && CanPin(p, p.ctxs[x])
    ensures var r := Apply(p, p.ctxs[x].slot, Pinned(p, p.ctxs[x], Slots.Lease));
            EpochFits(r, p.tokens, Epoch(p.ctxs[x], None))
  {
    var c := p.ctxs[x];
    var e := Pinned(p, c, Slots.Lease);
    assert SlotOk(p.slots[c.slot], p.counter, p.tokens) && CtxOk(c, p.counter) && Based(c, p.base);
    ReserveLeases(p.slots[c.slot], e);
    BindFits(p, c, Apply(p, c.slot, e));
  }

  /** An inherited lease: same generation, same lineage. */
  lemma BindKeeps(p: Pool, x: nat)
    requires Inv(p) && x in p.ctxs && CanPin(p, p.ctxs[x])
    ensures Inv(Bound(p, p.ctxs[x]))
  {
    var c := p.ctxs[x];
    BindReady(p, x);
    Section(p, c.slot, Pinned(p, c, Slots.Lease));
    AddEpoch(Apply(p, c.slot, Pinned(p, c, Slots.Lease)), p.tokens, Epoch(c, None));
  }

  lemma AddScan(p: Pool, t: nat, q: Scan)
    requires ScansOk(p.lanes, p.escapes, p.slots, p.ctxs, p.alive, p.scans)
    requires ScanOk(p.lanes, p.escapes, p.slots, p.ctxs, p.alive, q) && q.chosen.None?
    ensures ScansOk(p.lanes, p.escapes, p.slots, p.ctxs, p.alive, p.scans[t := q])
  {
  }

  lemma NextToken(p: Pool)
    requires Core(p)
    ensures Core(p.(tokens := p.tokens + 1))
  {
    assert SlotsOk(p.slots, p.counter, p.tokens + 1);
  }

  lemma ScanKeeps(p: Pool, who: Option<nat>, sync: bool, onLoop: bool)
    requires Inv(p) && Enabled(p, Acquire(who, sync, onLoop))
    ensures Inv(p.(scans := p.scans[p.tokens := Scan(who, sync && onLoop, sync, 0, {}, None)], tokens := p.tokens + 1))
  {
    var q := Scan(who, sync && onLoop, sync, 0, {}, None);
    AddScan(p, p.tokens, q);
    SetScans(p, p.scans[p.tokens := q]);
    NextToken(p.(scans := p.scans[p.tokens := q]));
  }

  lemma ReadKeeps(p: Pool, t: nat)
    requires Inv(p) && Enabled(p, ReadLane(t))
    ensures Inv(Read(p, t))
  {
    var q := p.scans[t];
    var lane := p.lanes[q.seen];
    var r := Read(p, t).scans[t];
    assert ScanOk(p.lanes, p.escapes, p.slots, p.ctxs, p.alive, q);
    if lane in r.kept && lane !in q.kept && q.blocking {
      assert SlotOk(p.slots[lane], p.counter, p.tokens);
      var c := p.ctxs[q.who.value];
      assert Executing(p.slots[c.slot], c.gen, q.who.value);
      ExecutingIsLive(p.slots[c.slot], c.gen, q.who.value) by { assert SlotOk(p.slots[c.slot], p.counter, p.tokens); }
    }
    assert ScanOk(p.lanes, p.escapes, p.slots, p.ctxs, p.alive, r);
  }

  lemma ExecutingIsLive(s: Slot, gen: nat, x: nat)
    requires Slots.Inv(s) && Executing(s, gen, x)
    ensures OwnsLoop(s, gen) && s.current.value.state == Slots.Open
  {
    var g := s.current.value;
    assert g.running != {} || g.tasks != {};
  }

  lemma SetScans(p: Pool, scans: map<nat, Scan>)
    requires Core(p) && ScansOk(p.lanes, p.escapes, p.slots, p.ctxs, p.alive, scans)
    ensures Core(p.(scans := scans))
  {
  }

  lemma AddSlot(p: Pool, s: nat)
    requires Core(p) && s !in p.slots && s == p.slotCounter + 1
    ensures var slots := p.slots[s := Slots.EMPTY];
            && LanesOk(p.lanes, p.escapes + {s}, slots.Keys, s) && SlotsOk(slots, p.counter, p.tokens)
            && EscapesOk(p.lanes, p.escapes + {s}, slots, p.base)
  {
    assert p.slots[s := Slots.EMPTY].Keys == p.slots.Keys + {s};
  }

  lemma AddSlotHolders(p: Pool, s: nat)
    requires Core(p) && s !in p.slots
    ensures var slots := p.slots[s := Slots.EMPTY];
            ExecsOk(slots, p.ctxs, p.alive) && LeasesOk(slots, p.epochs) && AcceptsOk(slots, p.ctxs)
  {
  }

  /** A new, empty escape lane, reserved for the one scan that asked for it. */
  lemma EscapeKeeps(p: Pool, t: nat)
    requires Inv(p) && t in p.scans
    ensures Inv(Escaped(p, t, p.slotCounter + 1))
  {
    assert p.slotCounter + 1 !in p.slots.Keys;
    AddSlot(p, p.slotCounter + 1);
    AddSlotHolders(p, p.slotCounter + 1);
    EscapeScans(p, t, p.slotCounter + 1);
  }

  lemma EscapeScans(p: Pool, t: nat, s: nat)
    requires ScansOk(p.lanes, p.escapes, p.slots, p.ctxs, p.alive, p.scans) && ExecsOk(p.slots, p.ctxs, p.alive)
    requires LanesOk(p.lanes, p.escapes, p.slots.Keys, p.slotCounter) && t in p.scans && s !in p.slots
    ensures ScansOk(p.lanes, p.escapes + {s}, p.slots[s := Slots.EMPTY], p.ctxs, p.alive, p.scans[t := p.scans[t].(chosen := Some(s))])
  {
    var slots, scans := p.slots[s := Slots.EMPTY], p.scans[t := p.scans[t].(chosen := Some(s))];
    forall u | u in scans
      ensures ScanOk(p.lanes, p.escapes + {s}, slots, p.ctxs, p.alive, scans[u])
    {
      var q := p.scans[u];
      assert ScanOk(p.lanes, p.escapes, p.slots, p.ctxs, p.alive, q);
      forall r | LaneOk(p.slots, p.ctxs, q, r)
        ensures LaneOk(slots, p.ctxs, scans[u], r)
      {
      }
    }
  }

  lemma ChooseKeeps(p: Pool, t: nat, lane: nat)
    requires Inv(p) && t in p.scans && (p.scans[t].kept != {} ==> lane in p.scans[t].kept)
    ensures Inv(Chosen(p, t, lane))
  {
    if p.scans[t].kept == {} {
      EscapeKeeps(p, t);
      assert Chosen(p, t, lane) == Escaped(p, t, p.slotCounter + 1);
    } else {
      LaneChosenKeeps(p, t, lane);
      assert Chosen(p, t, lane) == p.(scans := p.scans[t := p.scans[t].(chosen := Some(lane))]);
    }
  }

  lemma LaneChosenKeeps(p: Pool, t: nat, lane: nat)
    requires Inv(p) && t in p.scans && lane in p.scans[t].kept
    ensures Inv(p.(scans := p.scans[t := p.scans[t].(chosen := Some(lane))]))
  {
    ChooseScan(p, t, lane);
    SetScans(p, p.scans[t := p.scans[t].(chosen := Some(lane))]);
  }

  lemma ChooseScan(p: Pool, t: nat, lane: nat)
    requires LanesOk(p.lanes, p.escapes, p.slots.Keys, p.slotCounter) && ScansOk(p.lanes, p.escapes, p.slots, p.ctxs, p.alive, p.scans)
    requires t in p.scans && lane in p.scans[t].kept
    ensures ScansOk(p.lanes, p.escapes, p.slots, p.ctxs, p.alive, p.scans[t := p.scans[t].(chosen := Some(lane))])
  {
    var q := p.scans[t];
    assert ScanOk(p.lanes, p.escapes, p.slots, p.ctxs, p.alive, q);
    assert LaneOk(p.slots, p.ctxs, q, lane) && lane !in p.escapes;
    forall s | LaneOk(p.slots, p.ctxs, q, s)
      ensures LaneOk(p.slots, p.ctxs, q.(chosen := Some(lane)), s)
    {
    }
  }

  /** The generation leased on a lane found clear is outside the lineage: it was
      there when the lane was read, or its id is newer than the whole lineage. */
  lemma LeaseOutsideLineage(s: Slot, c: Ctx, counter: nat)
    requires Slots.Inv(s) && s.top <= counter && CtxOk(c, counter) && Clear(s, c.lineage)
    ensures var g := Slots.Granted(s, None, counter + 1); g.Some? && g.value !in c.lineage && g.value <= counter + 1
  {
    Slots.PickFacts(s, None, counter + 1);
  }

  lemma ExtendLineage(c: Ctx, counter: nat, s: nat, gen: nat)
    requires CtxOk(c, counter) && gen !in c.lineage && gen <= counter + 1
    ensures CtxOk(Ctx(s, gen, c.lineage), Max(counter, gen))
    ensures gen != c.gen ==> CtxOk(Ctx(s, gen, c.lineage + [c.gen]), Max(counter, gen))
  {
  }

  lemma LeaseElsewhere(p: Pool, x: nat, s: nat)
    requires Core(p) && x in p.alive && s in p.slots && p.ctxs[x].slot != s
    requires Slots.Granted(p.slots[s], None, p.counter + 1).Some?
    ensures Slots.Granted(p.slots[s], None, p.counter + 1).value != p.ctxs[x].gen
  {
    var c := p.ctxs[x];
    assert SlotOk(p.slots[s], p.counter, p.tokens) && CtxOk(c, p.counter) && Executing(p.slots[c.slot], c.gen, x);
    Slots.PickFacts(p.slots[s], None, p.counter + 1);
    assert Slots.GenOf(p.slots[c.slot], c.gen).Some?;
  }

  lemma NewEpochCtx(p: Pool, q: Scan, s: nat)
    requires s in p.slots && Slots.Inv(p.slots[s]) && p.slots[s].top <= p.counter && CtxsOk(p.ctxs, p.counter) && LaneOk(p.slots, p.ctxs, q, s)
    ensures Slots.Granted(p.slots[s], None, p.counter + 1).Some?
    ensures var e := NewEpoch(p, q, s); CtxOk(e.ctx, Max(p.counter, e.ctx.gen)) && e.ctx.gen <= p.counter + 1
  {
    if q.who.None? {
      LeaseOutsideLineage(p.slots[s], Ctx(0, 0, []), p.counter);
    } else {
      var c := p.ctxs[q.who.value];
      LeaseOutsideLineage(p.slots[s], c, p.counter);
      ExtendLineage(c, p.counter, s, Slots.Granted(p.slots[s], None, p.counter + 1).value);
    }
  }

  lemma NewEpochOk(p: Pool, q: Scan, s: nat)
    requires Core(p) && ScanOk(p.lanes, p.escapes, p.slots, p.ctxs, p.alive, q) && q.chosen == Some(s)
    ensures s in p.slots && Slots.Granted(p.slots[s], None, p.counter + 1).Some?
    ensures var e := NewEpoch(p, q, s); CtxOk(e.ctx, Max(p.counter, e.ctx.gen)) && e.ctx.gen <= p.counter + 1
    ensures WaitOk(p.ctxs, p.alive, NewEpoch(p, q, s))
  {
    assert SlotOk(p.slots[s], p.counter, p.tokens);
    NewEpochCtx(p, q, s);
    if q.blocking {
      LeaseElsewhere(p, q.who.value, s);
    }
  }

  lemma LaneLeaseKeeps(p: Pool, t: nat)
    requires Inv(p) && t in p.scans && p.scans[t].chosen.Some? && p.scans[t].chosen.value in p.slots
    requires p.scans[t].chosen.value !in p.escapes
    ensures Inv(Leased(p, t))
  {
    var q := p.scans[t];
    var s := q.chosen.value;
    assert ScanOk(p.lanes, p.escapes, p.slots, p.ctxs, p.alive, q) && SlotOk(p.slots[s], p.counter, p.tokens);
    SetScans(p, p.scans - {t});
    Section(p.(scans := p.scans - {t}), s, Unpinned(p));
    var r := Apply(p.(scans := p.scans - {t}), s, Unpinned(p));
    LaneEpochFits(p, q, s, r);
    AddEpoch(r, p.tokens, NewEpoch(p, q, s));
  }

  lemma LaneEpochFits(p: Pool, q: Scan, s: nat, r: Pool)
    requires Core(p) && ScanOk(p.lanes, p.escapes, p.slots, p.ctxs, p.alive, q) && q.chosen == Some(s) && s !in p.escapes
    requires Core(r) && s in p.slots && r.slots == p.slots[s := Slots.Step(p.slots[s], Unpinned(p))]
    requires r.ctxs == p.ctxs && r.alive == p.alive && r.lanes == p.lanes && r.base == p.base
    requires r.counter == Max(p.counter, r.slots[s].top)
    ensures EpochFits(r, p.tokens, NewEpoch(p, q, s))
  {
    NewEpochOk(p, q, s);
    assert SlotOk(p.slots[s], p.counter, p.tokens);
    ReserveLeases(p.slots[s], Unpinned(p));
    GrantedBelow(p.slots[s], Unpinned(p));
    assert s in p.lanes;
  }

  lemma GrantedBelow(s: Slot, e: Slots.Event)
    requires Slots.Inv(s) && e.Reserve? && Slots.Enabled(s, e) && Slots.Granted(s, e.preferred, e.newId).Some?
    ensures Slots.Granted(s, e.preferred, e.newId).value <= Slots.Step(s, e).top
  {
    Slots.PickFacts(s, e.preferred, e.newId);
  }

  /** The lease that creates an escape lane's only generation... */
  lemma EscapeSection(p: Pool, s: nat, t: Slot)
    requires Core(p) && s in p.escapes && s in p.slots && p.slots[s] == Slots.EMPTY && t == Slots.Step(Slots.EMPTY, Unpinned(p))
    requires forall k <- p.scans :: p.scans[k].chosen != Some(s)
    ensures t.current.Some? && t.current.value.id == p.counter + 1 == t.top && t.next.None? && Slots.Leased(t, p.counter + 1, p.tokens)
    ensures SlotsOk(p.slots[s := t], p.counter + 1, p.tokens + 1)
    ensures ScansOk(p.lanes, p.escapes, p.slots[s := t], p.ctxs, p.alive, p.scans)
    ensures ExecsOk(p.slots[s := t], p.ctxs, p.alive) && LeasesOk(p.slots[s := t], p.epochs) && AcceptsOk(p.slots[s := t], p.ctxs)
  {
    assert SlotOk(p.slots[s], p.counter, p.tokens);
    StepSucc(p, p.slots[s], Unpinned(p));
    ReplaceSlots(p.slots, p.counter, p.tokens, s, t);
    ReplaceScans(p, s, t);
    StepKept(p, s, Unpinned(p));
    ReplaceHolders(p, s, t);
  }

  lemma EscapeLanes(p: Pool, s: nat, t: Slot, b: set<nat>)
    requires LanesOk(p.lanes, p.escapes, p.slots.Keys, p.slotCounter) && SlotsOk(p.slots, p.counter, p.tokens)
    requires EscapesOk(p.lanes, p.escapes, p.slots, p.base)
    requires s in p.escapes && s in p.slots && t.next.None? && t.current.Some? && t.current.value.id == p.counter + 1
    ensures EscapesOk(p.lanes, p.escapes, p.slots[s := t], p.base[p.counter + 1 := b])
  {
    forall r, id: nat | r in p.lanes && r in p.slots && Slots.GenOf(p.slots[r], id).Some?
      ensures id !in p.base && id <= p.counter
    {
      assert SlotOk(p.slots[r], p.counter, p.tokens);
    }
  }

  lemma EscapeBased(ctxs: map<nat, Ctx>, epochs: map<nat, Epoch>, base: map<nat, set<nat>>, counter: nat, b: set<nat>)
    requires CtxsOk(ctxs, counter) && EpochCtxsOk(epochs, counter) && BasedOk(ctxs, epochs, base)
    requires BaseOk(base, counter) && (forall x <- b :: x <= counter)
    ensures BasedOk(ctxs, epochs, base[counter + 1 := b]) && BaseOk(base[counter + 1 := b], counter + 1)
  {
    assert forall x <- ctxs :: CtxOk(ctxs[x], counter) && Based(ctxs[x], base);
    assert forall k <- epochs :: CtxOk(epochs[k].ctx, counter) && Based(epochs[k].ctx, base);
  }

  /** ... fixes the blocked set of everything that will ever run there. */
  lemma EscapeGrow(p: Pool, s: nat, t: Slot, b: set<nat>)
    requires Core(p) && s in p.escapes && s in p.slots && (forall x <- b :: x <= p.counter)
    requires t.current.Some? && t.current.value.id == p.counter + 1 && t.next.None?
    ensures EscapesOk(p.lanes, p.escapes, p.slots[s := t], p.base[p.counter + 1 := b])
    ensures BasedOk(p.ctxs, p.epochs, p.base[p.counter + 1 := b]) && BaseOk(p.base[p.counter + 1 := b], p.counter + 1)
    ensures CtxsOk(p.ctxs, p.counter + 1) && EpochCtxsOk(p.epochs, p.counter + 1)
    ensures LanesOk(p.lanes, p.escapes, p.slots[s := t].Keys, p.slotCounter)
  {
    EscapeLanes(p, s, t, b);
    EscapeBased(p.ctxs, p.epochs, p.base, p.counter, b);
    GrowCounter(p, p.counter + 1);
    assert p.slots[s := t].Keys == p.slots.Keys;
  }

  lemma EscapeAssemble(p: Pool, s: nat, t: Slot, b: set<nat>)
    requires Core(p) && s in p.escapes && s in p.slots && (forall x <- b :: x <= p.counter)
    requires t.current.Some? && t.current.value.id == p.counter + 1 == t.top && t.next.None?
    requires SlotsOk(p.slots[s := t], p.counter + 1, p.tokens + 1)
    requires ScansOk(p.lanes, p.escapes, p.slots[s := t], p.ctxs, p.alive, p.scans)
    requires ExecsOk(p.slots[s := t], p.ctxs, p.alive) && LeasesOk(p.slots[s := t], p.epochs) && AcceptsOk(p.slots[s := t], p.ctxs)
    ensures Core(Replace(p, s, t).(base := p.base[p.counter + 1 := b]))
  {
    EscapeGrow(p, s, t, b);
  }

  lemma EscapeReady(p: Pool, s: nat, t: Slot, b: set<nat>)
    requires Core(p) && s in p.escapes && s in p.slots && p.slots[s] == Slots.EMPTY && t == Slots.Step(Slots.EMPTY, Unpinned(p))
    requires (forall k <- p.scans :: p.scans[k].chosen != Some(s)) && (forall x <- b :: x <= p.counter)
    ensures Slots.Leased(t, p.counter + 1, p.tokens) && t.top == p.counter + 1
    ensures Core(Replace(p, s, t).(base := p.base[p.counter + 1 := b]))
  {
    EscapeSection(p, s, t);
    EscapeAssemble(p, s, t, b);
  }

  lemma EscapeFits(p: Pool, r: Pool, s: nat, e: Epoch)
    requires CtxOk(e.ctx, p.counter + 1) && WaitOk(p.ctxs, p.alive, e) && e.ctx.slot == s && e.ctx.gen == p.counter + 1 == r.counter
    requires r.ctxs == p.ctxs && r.alive == p.alive && s in r.slots && Slots.Leased(r.slots[s], p.counter + 1, p.tokens)
    requires e.ctx.gen in r.base && r.base[e.ctx.gen] == Elems(e.ctx.lineage)
    ensures EpochFits(r, p.tokens, e)
  {
  }

  lemma EscapeLeaseReady(p: Pool, t: nat, s: nat, e: Epoch, r: Pool)
    requires Inv(p) && t in p.scans && p.scans[t].chosen == Some(s) && s in p.escapes && s in p.slots
    requires e == NewEpoch(p, p.scans[t], s)
    requires r == Replace(p.(scans := p.scans - {t}), s, Slots.Step(Slots.EMPTY, Unpinned(p)))
                  .(base := p.base[p.counter + 1 := Elems(e.ctx.lineage)])
    ensures p.slots[s] == Slots.EMPTY && e.ctx.gen == p.counter + 1
    ensures Core(r) && EpochFits(r, p.tokens, e)
  {
    var q := p.scans[t];
    assert ScanOk(p.lanes, p.escapes, p.slots, p.ctxs, p.alive, q);
    NewEpochOk(p, q, s);
    SetScans(p, p.scans - {t});
    EscapeReady(p.(scans := p.scans - {t}), s, Slots.Step(Slots.EMPTY, Unpinned(p)), Elems(e.ctx.lineage));
    EscapeFits(p, r, s, e);
  }

  lemma EscapeLeaseKeeps(p: Pool, t: nat)
    requires Inv(p) && t in p.scans && p.scans[t].chosen.Some? && p.scans[t].chosen.value in p.escapes
    ensures p.scans[t].chosen.value in p.slots && Inv(Leased(p, t))
  {
    var s := p.scans[t].chosen.value;
    assert s in p.slots;
    var e := NewEpoch(p, p.scans[t], s);
    var r := Replace(p.(scans := p.scans - {t}), s, Slots.Step(Slots.EMPTY, Unpinned(p)))
             .(base := p.base[p.counter + 1 := Elems(e.ctx.lineage)]);
    EscapeLeaseReady(p, t, s, e, r);
    AddEpoch(r, p.tokens, e);
    assert Leased(p, t) == r.(epochs := r.epochs[p.tokens := e]);
  }

  lemma RetireKeeps(p: Pool, s: nat)
    requires Inv(p) && s in p.escapes && s in p.slots && p.slots[s].current.None? && p.slots[s].top > 0
    ensures Inv(p.(escapes := p.escapes - {s}, slots := p.slots - {s}))
  {
    var slots, escapes := p.slots - {s}, p.escapes - {s};
    assert slots.Keys == p.slots.Keys - {s};
    assert SlotOk(p.slots[s], p.counter, p.tokens);
    RetireScans(p, s);
    RetireHolders(p, s);
    assert LanesOk(p.lanes, escapes, slots.Keys, p.slotCounter);
    assert EscapesOk(p.lanes, escapes, slots, p.base);
  }

  lemma RetireScans(p: Pool, s: nat)
    requires Core(p) && s in p.escapes && s in p.slots && p.slots[s].top > 0
    ensures ScansOk(p.lanes, p.escapes - {s}, p.slots - {s}, p.ctxs, p.alive, p.scans)
  {
    forall t | t in p.scans
      ensures ScanOk(p.lanes, p.escapes - {s}, p.slots - {s}, p.ctxs, p.alive, p.scans[t])
    {
      assert ScanOk(p.lanes, p.escapes, p.slots, p.ctxs, p.alive, p.scans[t]);
    }
  }

  lemma RetireHolders(p: Pool, s: nat)
    requires Core(p) && s in p.slots && p.slots[s].current.None? && p.slots[s].next.None?
    ensures SlotsOk(p.slots - {s}, p.counter, p.tokens) && ExecsOk(p.slots - {s}, p.ctxs, p.alive)
    ensures LeasesOk(p.slots - {s}, p.epochs) && AcceptsOk(p.slots - {s}, p.ctxs)
  {
    RetireWork(p.slots, p.ctxs, p.alive, p.epochs, s);
  }

  lemma RetireWork(slots: map<nat, Slot>, ctxs: map<nat, Ctx>, alive: set<nat>, epochs: map<nat, Epoch>, s: nat)
    requires ExecsOk(slots, ctxs, alive) && LeasesOk(slots, epochs)
    requires s in slots && slots[s].current.None? && slots[s].next.None?
    ensures ExecsOk(slots - {s}, ctxs, alive) && LeasesOk(slots - {s}, epochs)
  {
    assert forall x <- alive :: Executing(slots[ctxs[x].slot], ctxs[x].gen, x);
    assert forall k <- epochs :: Slots.Leased(slots[epochs[k].ctx.slot], epochs[k].ctx.gen, k);
  }

  lemma StepKeepsInv(p: Pool, ev: Event)
    requires Inv(p)
    ensures Inv(Step(p, ev))
  {
    if Enabled(p, ev) {
      match ev
      case Acquire(who, sync, onLoop) => AcquireKeeps(p, who, sync, onLoop);
      case ReadLane(t) => ReadKeeps(p, t);
      case Choose(t, lane) => ChooseKeeps(p, t, lane);
      case TakeLease(t) => LeaseKeeps(p, t);
      case Submit(k) =>
        assert CtxOk(p.epochs[k].ctx, p.counter) && Based(p.epochs[k].ctx, p.base);
        SubmitKeeps(p, p.epochs[k].ctx);
      case Spawn(x) => SpawnKeeps(p, x);
      case EndExec(x) => EndKeeps(p, x);
      case EndEpoch(k) => UnbindKeeps(p, k);
      case Loop(s, e) => LoopKeeps(p, s, e);
      case Retire(s) => RetireKeeps(p, s);
    }
  }

  lemma AcquireKeeps(p: Pool, who: Option<nat>, sync: bool, onLoop: bool)
    requires Inv(p) && Enabled(p, Acquire(who, sync, onLoop))
    ensures Inv(Acquired(p, who, sync, onLoop))
  {
    if who.Some? && p.ctxs[who.value].gen !in p.ctxs[who.value].lineage && !(sync && onLoop) && CanPin(p, p.ctxs[who.value]) {
      BindKeeps(p, who.value);
    } else {
      ScanKeeps(p, who, sync, onLoop);
    }
  }

  lemma LeaseKeeps(p: Pool, t: nat)
    requires Inv(p) && t in p.scans && p.scans[t].chosen.Some? && p.scans[t].chosen.value in p.slots
    ensures Inv(Leased(p, t))
  {
    if p.scans[t].chosen.value in p.escapes {
      EscapeLeaseKeeps(p, t);
    } else {
      LaneLeaseKeeps(p, t);
    }
  }

  lemma InitInv(n: nat)
    ensures Inv(Init(n))
  {
  }

  lemma {:induction false} RunKeepsInv(p: Pool, es: seq<Event>)
    requires Inv(p)
    ensures Inv(Run(p, es))
    decreases |es|
  {
    if es != [] {
      StepKeepsInv(p, es[0]);
      RunKeepsInv(Step(p, es[0]), es[1..]);
    }
  }

  // ------------------------------------------------- what every run satisfies

  /** In every run, with any number of lanes, no execution context runs on a
      generation blocked along its lineage, and those generations are distinct. */
  lemma LineageInEveryRun(n: nat, es: seq<Event>)
    ensures var p := Run(Init(n), es);
            && (forall x <- p.ctxs :: p.ctxs[x].gen !in p.ctxs[x].lineage && NoDup(p.ctxs[x].lineage))
            && (forall k <- p.epochs :: p.epochs[k].ctx.gen !in p.epochs[k].ctx.lineage && NoDup(p.epochs[k].ctx.lineage))
  {
    InitInv(n);
    RunKeepsInv(Init(n), es);
    var p := Run(Init(n), es);
    assert forall x <- p.ctxs :: CtxOk(p.ctxs[x], p.counter);
    assert forall k <- p.epochs :: CtxOk(p.epochs[k].ctx, p.counter);
  }

  /** During an epoch its lane stays registered, escape lanes included, and its
      lease stays counted, so releasing it never fails. */
  lemma EpochKeepsItsLane(n: nat, es: seq<Event>, k: nat)
    requires k in Run(Init(n), es).epochs
    ensures var p := Run(Init(n), es);
            var c := p.epochs[k].ctx;
            && c.slot in p.slots && (c.slot in p.lanes || c.slot in p.escapes)
            && Slots.Enabled(p.slots[c.slot], Slots.ReleaseLease(c.gen, k))
            && Slots.GenOf(p.slots[c.slot], c.gen).value.reservations > 0
  {
    InitInv(n);
    RunKeepsInv(Init(n), es);
    var p := Run(Init(n), es);
    assert Slots.Leased(p.slots[p.epochs[k].ctx.slot], p.epochs[k].ctx.gen, k);
    assert SlotOk(p.slots[p.epochs[k].ctx.slot], p.counter, p.tokens);
    assert Slots.GenOf(p.slots[p.epochs[k].ctx.slot], p.epochs[k].ctx.gen).value.leases != {};
  }

  /** Work that still holds its reservation can always lease its own generation
      again and retain a descendant on it. */
  lemma LiveWorkIsAdmitted(n: nat, es: seq<Event>, x: nat)
    requires x in Run(Init(n), es).alive
    ensures var p := Run(Init(n), es);
            && x in p.ctxs && CanPin(p, p.ctxs[x])
            && p.ctxs[x].slot in p.slots && Slots.Enabled(p.slots[p.ctxs[x].slot], Slots.Retain(p.ctxs[x].gen, p.tokens))
  {
    InitInv(n);
    RunKeepsInv(Init(n), es);
    var p := Run(Init(n), es);
    var c := p.ctxs[x];
    assert Executing(p.slots[c.slot], c.gen, x) && SlotOk(p.slots[c.slot], p.counter, p.tokens);
    ExecutingIsLive(p.slots[c.slot], c.gen, x);
  }

  // --------------------------------------------------- what each event does

  /** The pinned lease of a context is refused: its generation has left its lane, or is
      past admission. */
  ghost predicate Refuses(p: Pool, c: Ctx) {
    || c.slot !in p.slots
    || (forall g :: Slots.Here(p.slots[c.slot], g) && g.id == c.gen ==>
                      g.state == Slots.Sealing || g.state == Slots.Draining || g.state == Slots.Closed)
  }

  lemma {:induction false} RefusalIs(p: Pool, c: Ctx)
    requires c.slot in p.slots ==> Slots.Inv(p.slots[c.slot])
    ensures Refuses(p, c) <==> !CanPin(p, c)
  {
    if c.slot in p.slots {
      var s := p.slots[c.slot];
      assert forall g :: Slots.Here(s, g) && g.id == c.gen ==> Slots.GenOf(s, c.gen) == Some(g);
      if Slots.GenOf(s, c.gen).Some? {
        assert Slots.Here(s, Slots.GenOf(s, c.gen).value);
      }
    }
  }

  /** Within an execution a scope that blocks its loop, or that its generation refuses,
      looks at the lanes ... */
  lemma {:induction false} AcquireScans(p: Pool, x: nat, sync: bool, onLoop: bool)
    requires Inv(p) && x in p.ctxs && (onLoop ==> x in p.alive) && ((sync && onLoop) || Refuses(p, p.ctxs[x]))
    ensures Step(p, Acquire(Some(x), sync, onLoop)) ==
            p.(scans := p.scans[p.tokens := Scan(Some(x), sync && onLoop, sync, 0, {}, None)], tokens := p.tokens + 1)
  {
    var c := p.ctxs[x];
    assert c.slot in p.slots ==> SlotOk(p.slots[c.slot], p.counter, p.tokens);
    RefusalIs(p, c);
  }

  lemma {:induction false} AcquireIsBound(p: Pool, x: nat, sync: bool, onLoop: bool)
    requires Inv(p) && x in p.ctxs && (onLoop ==> x in p.alive) && !(sync && onLoop) && !Refuses(p, p.ctxs[x])
    ensures CanPin(p, p.ctxs[x]) && Step(p, Acquire(Some(x), sync, onLoop)) == Bound(p, p.ctxs[x])
  {
    var c := p.ctxs[x];
    assert CtxOk(c, p.counter);
    assert c.slot in p.slots ==> SlotOk(p.slots[c.slot], p.counter, p.tokens);
    RefusalIs(p, c);
  }

  /** ... and any other scope takes the generation it runs on, at once, under the same
      lineage. */
  lemma {:induction false} AcquireBinds(p: Pool, x: nat, sync: bool, onLoop: bool)
    requires Inv(p) && x in p.ctxs && (onLoop ==> x in p.alive) && !(sync && onLoop) && !Refuses(p, p.ctxs[x])
    ensures var t, c := Step(p, Acquire(Some(x), sync, onLoop)), p.ctxs[x];
            && t.epochs == p.epochs[p.tokens := Epoch(c, None)] && t.scans == p.scans
            && c.slot in t.slots && Slots.Leased(t.slots[c.slot], c.gen, p.tokens)
            && t.ctxs == p.ctxs && t.alive == p.alive && t.lanes == p.lanes && t.escapes == p.escapes
  {
    AcquireIsBound(p, x, sync, onLoop);
    BindReady(p, x);
  }

  /** So, for any context, a lease is taken at once exactly when the scope does not block
      its loop and the generation does not refuse. */
  lemma {:induction false} LeasedAtOnceIff(p: Pool, x: nat, sync: bool, onLoop: bool)
    requires Inv(p) && x in p.ctxs && (onLoop ==> x in p.alive)
    ensures p.tokens in Step(p, Acquire(Some(x), sync, onLoop)).epochs <==> !(sync && onLoop) && !Refuses(p, p.ctxs[x])
  {
    NewToken(p);
    if (sync && onLoop) || Refuses(p, p.ctxs[x]) {
      AcquireScans(p, x, sync, onLoop);
    } else {
      AcquireBinds(p, x, sync, onLoop);
    }
  }

  /** Outside any execution a scope always looks at the lanes. */
  lemma {:induction false} AcquireOutside(p: Pool, sync: bool)
    ensures Step(p, Acquire(None, sync, false)) ==
            p.(scans := p.scans[p.tokens := Scan(None, false, sync, 0, {}, None)], tokens := p.tokens + 1)
  {
  }

  /** In every run, work that holds its reservation and does not block its loop is given
      its own generation again, under its own lineage, and opens no scan. */
  lemma {:induction false} LiveWorkKeepsItsGeneration(n: nat, es: seq<Event>, x: nat, sync: bool, onLoop: bool)
    requires x in Run(Init(n), es).alive && !(sync && onLoop)
    ensures var p := Run(Init(n), es);
            var t := Step(p, Acquire(Some(x), sync, onLoop));
            && x in p.ctxs && p.tokens !in p.epochs
            && t.epochs == p.epochs[p.tokens := Epoch(p.ctxs[x], None)] && t.scans == p.scans
            && p.ctxs[x].slot in t.slots && Slots.Leased(t.slots[p.ctxs[x].slot], p.ctxs[x].gen, p.tokens)
  {
    InitInv(n);
    RunKeepsInv(Init(n), es);
    var p := Run(Init(n), es);
    LiveWorkIsAdmitted(n, es, x);
    var c := p.ctxs[x];
    assert SlotOk(p.slots[c.slot], p.counter, p.tokens);
    RefusalIs(p, c);
    AcquireBinds(p, x, sync, onLoop);
    NewToken(p);
  }

  lemma {:induction false} NewToken(p: Pool)
    requires Inv(p)
    ensures p.tokens !in p.epochs
  {
    assert forall k <- p.epochs :: Slots.Leased(p.slots[p.epochs[k].ctx.slot], p.epochs[k].ctx.gen, k);
    assert forall s <- p.slots :: SlotOk(p.slots[s], p.counter, p.tokens);
  }

  /** A generation is on lane `s`, or not. */
  ghost predicate On(s: Slot, id: nat) {
    exists g :: Slots.Here(s, g) && g.id == id
  }

  lemma {:induction false} OnIs(s: Slot, id: nat)
    ensures On(s, id) <==> Slots.GenOf(s, id).Some?
  {
    if Slots.GenOf(s, id).Some? {
      assert Slots.Here(s, Slots.GenOf(s, id).value) && Slots.GenOf(s, id).value.id == id;
    }
  }

  /** Lane `s` is barred to a scope entered in context `c`: it holds a generation blocked
      upstream, or the very loop that the scope would block. */
  ghost predicate Barred(s: Slot, c: Ctx, blocking: bool) {
    || (exists b <- c.lineage :: On(s, b))
    || (blocking && s.current.Some? && s.current.value.id == c.gen && s.current.value.live)
  }

  lemma {:induction false} BarredIs(s: Slot, c: Ctx, blocking: bool)
    requires Slots.Inv(s)
    ensures Barred(s, c, blocking) <==> !(Clear(s, c.lineage) && !(blocking && OwnsLoop(s, c.gen)))
  {
    forall b
      ensures On(s, b) <==> Slots.GenOf(s, b).Some?
    {
      OnIs(s, b);
    }
    LiveIsCurrent(s, c.gen);
  }

  /** Reading a lane keeps it as a candidate exactly when it is not barred. */
  lemma {:induction false} ReadDoes(p: Pool, t: nat)
    requires Inv(p) && t in p.scans && p.scans[t].chosen.None? && p.scans[t].seen < |p.lanes|
    ensures p.lanes[p.scans[t].seen] in p.slots
    ensures var q, lane := p.scans[t], p.lanes[p.scans[t].seen];
            var barred := q.who.Some? && q.who.value in p.ctxs && Barred(p.slots[lane], p.ctxs[q.who.value], q.blocking);
            Step(p, ReadLane(t)) == p.(scans := p.scans[t := q.(seen := q.seen + 1, kept := if barred then q.kept else q.kept + {lane})])
  {
    var q, lane := p.scans[t], p.lanes[p.scans[t].seen];
    assert lane in p.lanes;
    assert SlotOk(p.slots[lane], p.counter, p.tokens);
    if q.who.Some? && q.who.value in p.ctxs {
      BarredIs(p.slots[lane], p.ctxs[q.who.value], q.blocking);
    }
  }

  lemma {:induction false} LiveIsCurrent(s: Slot, gen: nat)
    requires Slots.Inv(s)
    ensures OwnsLoop(s, gen) <==> s.current.Some? && s.current.value.id == gen && s.current.value.live
  {
  }

  /** Once all lanes are read a candidate is chosen, or, if there is none, a new escape
      lane is opened under a new number. */
  lemma {:induction false} ChooseDoes(p: Pool, t: nat, lane: nat)
    requires t in p.scans && p.scans[t].chosen.None? && p.scans[t].seen >= |p.lanes|
    ensures var q, s, r := p.scans[t], p.slotCounter + 1, Step(p, Choose(t, lane));
            if q.kept == {}
            then r == p.(slotCounter := s, escapes := p.escapes + {s}, slots := p.slots[s := Slots.EMPTY],
                         scans := p.scans[t := q.(chosen := Some(s))])
            else if lane in q.kept then r == p.(scans := p.scans[t := q.(chosen := Some(lane))])
            else r == p
  {
  }

  /** Leasing ends the scan and opens an epoch on the chosen lane, with a lease on its
      generation.  Its lineage is the scope's own, extended by the generation the scope
      runs on if the scope is synchronous and left that generation; its waiter is the
      execution whose loop it blocks. */
  lemma {:induction false} TakeLeaseDoes(p: Pool, t: nat)
    requires Inv(p) && t in p.scans && p.scans[t].chosen.Some?
    ensures var q, r := p.scans[t], Step(p, TakeLease(t));
            && r.scans == p.scans - {t} && p.tokens in r.epochs && r.epochs == p.epochs[p.tokens := r.epochs[p.tokens]]
            && r.ctxs == p.ctxs && r.alive == p.alive && r.lanes == p.lanes && r.escapes == p.escapes
            && var e := r.epochs[p.tokens];
               && e.ctx.slot == q.chosen.value && e.waiter == (if q.blocking then q.who else None)
               && e.ctx.slot in r.slots && Slots.Leased(r.slots[e.ctx.slot], e.ctx.gen, p.tokens)
               && (q.who.None? ==> e.ctx.lineage == [])
               && (q.who.Some? ==>
                     q.who.value in p.ctxs
                     && var c := p.ctxs[q.who.value];
                        e.ctx.lineage == if q.sync && e.ctx.gen != c.gen then c.lineage + [c.gen] else c.lineage)
  {
    var q := p.scans[t];
    var s := q.chosen.value;
    assert ScanOk(p.lanes, p.escapes, p.slots, p.ctxs, p.alive, q);
    NewEpochOk(p, q, s);
    assert SlotOk(p.slots[s], p.counter, p.tokens);
    ReserveLeases(p.slots[s], Unpinned(p));
    assert Step(p, TakeLease(t)) == Leased(p, t);
  }

  // ---- the events that are one critical section of one lane

  /** From `p` to `t` lane `s` made step `e`; the rest is for the caller to say. */
  ghost predicate Stepped(p: Pool, t: Pool, s: nat, e: Slots.Event) {
    s in p.slots && t.slots == p.slots[s := Slots.Step(p.slots[s], e)]
  }

  lemma {:induction false} EpochLane(p: Pool, k: nat)
    requires Inv(p) && k in p.epochs
    ensures var c := p.epochs[k].ctx; c.slot in p.slots && Slots.Inv(p.slots[c.slot]) && Slots.Leased(p.slots[c.slot], c.gen, k)
    ensures var c := p.epochs[k].ctx; p.slots[c.slot].top < p.counter + 1 && p.tokens !in p.slots[c.slot].used
  {
    var c := p.epochs[k].ctx;
    assert Slots.Leased(p.slots[c.slot], c.gen, k) && SlotOk(p.slots[c.slot], p.counter, p.tokens);
  }

  lemma {:induction false} ExecLane(p: Pool, x: nat)
    requires Inv(p) && x in p.alive
    ensures x in p.ctxs && p.ctxs[x].slot in p.slots && Slots.Inv(p.slots[p.ctxs[x].slot])
    ensures var c := p.ctxs[x]; Executing(p.slots[c.slot], c.gen, x) && p.tokens !in p.slots[c.slot].used
  {
    var c := p.ctxs[x];
    assert Executing(p.slots[c.slot], c.gen, x) && SlotOk(p.slots[c.slot], p.counter, p.tokens);
  }

  lemma {:induction false} SubmitStep(p: Pool, k: nat)
    requires k in p.epochs && p.epochs[k].ctx.slot in p.slots && CanPin(p, p.epochs[k].ctx)
    ensures var t, c := Step(p, Submit(k)), p.epochs[k].ctx;
            && t.ctxs == p.ctxs[p.tokens := c] && t.epochs == p.epochs && t.alive == p.alive && t.scans == p.scans
            && Stepped(p, t, c.slot, Slots.Reserve(Some(c.gen), p.counter + 1, Slots.Submission, p.tokens))
  {
  }

  lemma {:induction false} PinnedOnLane(s: Slot, gen: nat, newId: nat, tok: nat)
    requires Slots.Inv(s) && s.top < newId && tok !in s.used && Slots.Granted(s, Some(gen), newId).Some?
    ensures var t := Slots.Step(s, Slots.Reserve(Some(gen), newId, Slots.Submission, tok));
            exists g: Slots.Gen, h: Slots.Gen :: g.id == gen && Slots.Holds(g, h, Slots.Submission, tok) && Slots.Became(s, t, g, h)
  {
    var g := Slots.GenOf(s, gen).value;
    Slots.PinnedJoins(s, g, newId, Slots.Submission, tok);
  }

  /** A submission of an epoch runs in the epoch's context on its generation ... */
  lemma {:induction false} SubmitDoes(p: Pool, k: nat)
    requires Inv(p) && k in p.epochs && !Refuses(p, p.epochs[k].ctx)
    ensures var t, c := Step(p, Submit(k)), p.epochs[k].ctx;
            && t.ctxs == p.ctxs[p.tokens := c] && t.epochs == p.epochs && t.alive == p.alive && t.scans == p.scans
            && c.slot in p.slots && c.slot in t.slots
            && exists g: Slots.Gen, h: Slots.Gen :: g.id == c.gen && Slots.Holds(g, h, Slots.Submission, p.tokens)
                              && Slots.Became(p.slots[c.slot], t.slots[c.slot], g, h)
  {
    var c := p.epochs[k].ctx;
    EpochLane(p, k);
    RefusalIs(p, c);
    SubmitStep(p, k);
    PinnedOnLane(p.slots[c.slot], c.gen, p.counter + 1, p.tokens);
  }

  /** ... unless that refuses it. */
  lemma {:induction false} SubmitRefused(p: Pool, k: nat)
    requires k in p.epochs && Refuses(p, p.epochs[k].ctx) && (p.epochs[k].ctx.slot in p.slots ==> Slots.Inv(p.slots[p.epochs[k].ctx.slot]))
    ensures Step(p, Submit(k)) == p
  {
    RefusalIs(p, p.epochs[k].ctx);
  }

  lemma {:induction false} SpawnStep(p: Pool, x: nat)
    requires x in p.alive && x in p.ctxs && p.ctxs[x].slot in p.slots
    requires Slots.Enabled(p.slots[p.ctxs[x].slot], Slots.Retain(p.ctxs[x].gen, p.tokens))
    ensures var t, c := Step(p, Spawn(x)), p.ctxs[x];
            && t.ctxs == p.ctxs[p.tokens := c] && t.alive == p.alive + {p.tokens} && t.epochs == p.epochs && t.scans == p.scans
            && Stepped(p, t, c.slot, Slots.Retain(c.gen, p.tokens))
  {
  }

  lemma {:induction false} RetainedOnLane(s: Slot, gen: nat, x: nat, tok: nat)
    requires Slots.Inv(s) && Executing(s, gen, x) && tok !in s.used
    ensures Slots.Enabled(s, Slots.Retain(gen, tok)) && Executing(Slots.Step(s, Slots.Retain(gen, tok)), gen, tok)
  {
    ExecutingIsLive(s, gen, x);
    RetainExecutes(s, gen, x, tok);
  }

  /** A descendant of a live execution is live at once, in the same context. */
  lemma {:induction false} SpawnDoes(p: Pool, x: nat)
    requires Inv(p) && x in p.alive
    ensures x in p.ctxs
    ensures var t, c := Step(p, Spawn(x)), p.ctxs[x];
            && t.ctxs == p.ctxs[p.tokens := c] && t.alive == p.alive + {p.tokens} && t.epochs == p.epochs && t.scans == p.scans
            && c.slot in t.slots && Executing(t.slots[c.slot], c.gen, p.tokens)
  {
    ExecLane(p, x);
    RetainedOnLane(p.slots[p.ctxs[x].slot], p.ctxs[x].gen, x, p.tokens);
    SpawnStep(p, x);
  }

  lemma {:induction false} EndExecStep(p: Pool, x: nat)
    requires x in p.alive && x in p.ctxs && p.ctxs[x].slot in p.slots
    ensures var t, c := Step(p, EndExec(x)), p.ctxs[x];
            if (exists k <- p.epochs :: p.epochs[k].waiter == Some(x)) || (exists q <- p.scans :: p.scans[q].blocking && p.scans[q].who == Some(x))
            then t == p
            else
              && t.alive == p.alive - {x} && t.epochs == p.epochs && t.scans == p.scans && t.ctxs == p.ctxs
              && Stepped(p, t, c.slot, Ending(p, x))
  {
  }

  lemma {:induction false} ExecutionEnds(s: Slot, gen: nat, x: nat, e: Slots.Event)
    requires Slots.Inv(s) && Executing(s, gen, x)
    requires e == if x in s.current.value.running then Slots.FinishSubmission(gen, x) else Slots.TaskDone(gen, x)
    ensures exists g: Slots.Gen, h: Slots.Gen :: g.id == gen && Slots.Dropped(g, h) && Slots.Leaver(g, h, e) && Slots.Became(s, Slots.Step(s, e), g, h)
  {
    Slots.LeavingDoes(s, s.current.value, e);
  }

  /** An execution ends, with its reservation, unless its loop is blocked or about to be. */
  lemma {:induction false} EndExecDoes(p: Pool, x: nat)
    requires Inv(p) && x in p.alive
    ensures x in p.ctxs && p.ctxs[x].slot in p.slots
    ensures var t, c := Step(p, EndExec(x)), p.ctxs[x];
            if (exists k <- p.epochs :: p.epochs[k].waiter == Some(x)) || (exists q <- p.scans :: p.scans[q].blocking && p.scans[q].who == Some(x))
            then t == p
            else
              && t.alive == p.alive - {x} && t.epochs == p.epochs && t.scans == p.scans && t.ctxs == p.ctxs
              && c.slot in t.slots
              && exists g: Slots.Gen, h: Slots.Gen :: g.id == c.gen && Slots.Dropped(g, h) && x in g.running + g.tasks
                                && (h.running == g.running - {x} || h.tasks == g.tasks - {x})
                                && Slots.Became(p.slots[c.slot], t.slots[c.slot], g, h)
  {
    ExecLane(p, x);
    EndExecStep(p, x);
    ExecutionEnds(p.slots[p.ctxs[x].slot], p.ctxs[x].gen, x, Ending(p, x));
  }

  lemma {:induction false} EndEpochStep(p: Pool, k: nat)
    requires k in p.epochs && p.epochs[k].ctx.slot in p.slots
    ensures var t, c := Step(p, EndEpoch(k)), p.epochs[k].ctx;
            && t.epochs == p.epochs - {k} && t.ctxs == p.ctxs && t.alive == p.alive && t.scans == p.scans
            && Stepped(p, t, c.slot, Slots.ReleaseLease(c.gen, k))
  {
  }

  lemma {:induction false} LeaseEnds(s: Slot, gen: nat, k: nat)
    requires Slots.Inv(s) && Slots.Leased(s, gen, k)
    ensures var t := Slots.Step(s, Slots.ReleaseLease(gen, k));
            exists g: Slots.Gen, h: Slots.Gen :: g.id == gen && k in g.leases && h.leases == g.leases - {k} && Slots.Dropped(g, h) && Slots.Became(s, t, g, h)
  {
    Slots.LeavingDoes(s, Slots.GenOf(s, gen).value, Slots.ReleaseLease(gen, k));
  }

  /** The end of an epoch is the end of its lease. */
  lemma {:induction false} EndEpochDoes(p: Pool, k: nat)
    requires Inv(p) && k in p.epochs
    ensures p.epochs[k].ctx.slot in p.slots
    ensures var t, c := Step(p, EndEpoch(k)), p.epochs[k].ctx;
            && t.epochs == p.epochs - {k} && t.ctxs == p.ctxs && t.alive == p.alive && t.scans == p.scans
            && c.slot in t.slots
            && exists g: Slots.Gen, h: Slots.Gen :: g.id == c.gen && k in g.leases && h.leases == g.leases - {k} && Slots.Dropped(g, h)
                              && Slots.Became(p.slots[c.slot], t.slots[c.slot], g, h)
  {
    EpochLane(p, k);
    EndEpochStep(p, k);
    LeaseEnds(p.slots[p.epochs[k].ctx.slot], p.epochs[k].ctx.gen, k);
  }

  /** A lane's own events happen on that lane; a submission that its loop starts is live
      from then on. */
  lemma {:induction false} LoopDoes(p: Pool, s: nat, e: Slots.Event)
    requires s in p.slots && (e.Start? || e.Drain? || e.Close?)
    ensures var t := Step(p, Loop(s, e));
            Stepped(p, t, s, e) && t.epochs == p.epochs && t.scans == p.scans && t.ctxs == p.ctxs && t.alive == p.alive
  {
    assert !Slots.Enabled(p.slots[s], e) ==> Slots.Step(p.slots[s], e) == p.slots[s] && p.slots[s := p.slots[s]] == p.slots;
  }

  lemma {:induction false} BeginDoes(p: Pool, s: nat, g: Slots.Gen)
    requires s in p.slots && Slots.Inv(p.slots[s]) && Slots.Here(p.slots[s], g) && g.ready != []
    ensures var t := Step(p, Loop(s, Slots.Begin(g.id)));
            && Stepped(p, t, s, Slots.Begin(g.id)) && t.alive == p.alive + {g.ready[0]}
            && t.epochs == p.epochs && t.scans == p.scans && t.ctxs == p.ctxs
  {
    assert Slots.GenOf(p.slots[s], g.id) == Some(g);
  }

  /** An escape lane goes when it has served and is idle, and no other lane ever goes. */
  lemma {:induction false} RetireDoes(p: Pool, s: nat)
    ensures Step(p, Retire(s)) ==
            if s in p.escapes && s in p.slots && p.slots[s].current.None? && p.slots[s].top > 0
            then p.(escapes := p.escapes - {s}, slots := p.slots - {s}) else p
  {
  }
}
