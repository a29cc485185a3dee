/**
  One carrier lane: at most two generations, `current` and `next`, served in
  order by a control executor with a single worker.  Every critical section of
  `_CarrierSlot` is one event.  A disabled event (a refused reservation, a
  retention after sealing) leaves the slot as it is, as the source raises
  without changing anything.
 */
module Slots {
  import opened Common

  type Token = nat

  datatype GenState = Queued | Starting | Open | Sealing | Draining | Closed

  /** The first five fields are the source's; the others record who holds the
      reservations and what the event loop has been asked to do:
      `ready` is the loop's queue of submissions to start, `signals` counts the
      calls that set the seal event. */
  datatype Gen = Gen(
    id: nat,
    state: GenState,
    reservations: int,
    live: bool,
    pending: seq<Token>,
    ready: seq<Token>,
    accepted: seq<Token>,
    begun: seq<Token>,
    running: set<Token>,
    leases: set<Token>,
    tasks: set<Token>,
    signals: nat)

  /** `queue` is the control executor's list of unfinished jobs, `top` the
      largest generation id the lane has seen and `used` its tokens so far. */
  datatype Slot = Slot(current: Option<Gen>, next: Option<Gen>, queue: seq<nat>, top: nat, used: set<Token>)

  const EMPTY := Slot(None, None, [], 0, {})

  datatype Kind = Lease | Submission

  datatype Event =
    | Reserve(preferred: Option<nat>, newId: nat, kind: Kind, tok: Token)
    | Retain(id: nat, tok: Token)
    | ReleaseLease(id: nat, tok: Token)
    | FinishSubmission(id: nat, tok: Token)
    | TaskDone(id: nat, tok: Token)
    | Begin(id: nat)
    | Start
    | Drain
    | Close

  // ---------------------------------------------------------- one generation

  function NewGen(id: nat): Gen {
    Gen(id, Queued, 0, false, [], [], [], [], {}, {}, {}, 0)
  }

  predicate Admitting(st: GenState) {
    st == Queued || st == Starting || st == Open
  }

  function Add(g: Gen, kind: Kind, tok: Token): Gen {
    var h := g.(reservations := g.reservations + 1);
    match kind
    case Lease => h.(leases := g.leases + {tok})
    case Submission =>
      var k := h.(accepted := g.accepted + [tok]);
      if g.live then k.(ready := g.ready + [tok]) else k.(pending := g.pending + [tok])
  }

  /** `_release_reservation` without its underflow guard. */
  function Drop(g: Gen): Gen {
    var n := g.reservations - 1;
    if n == 0 then
      g.(reservations := n,
      state := if Admitting(g.state) then Sealing else g.state,
      signals := if g.live then g.signals + 1 else g.signals)
    else g.(reservations := n)
  }

  /** The first critical section of `_run_generation`. */
  function StartGen(g: Gen): Gen {
    g.(live := true,
    state := if g.reservations == 0 then Sealing else Open,
    ready := g.ready + g.pending,
    pending := [],
    signals := if g.reservations == 0 then g.signals + 1 else g.signals)
  }

  function BeginGen(g: Gen): Gen
    requires g.ready != []
  {
    g.(ready := g.ready[1..], begun := g.begun + [g.ready[0]], running := g.running + {g.ready[0]})
  }

  // ------------------------------------------------------------- one lane

  function GenOf(s: Slot, id: nat): Option<Gen> {
    if s.current.Some? && s.current.value.id == id then s.current
    else if s.next.Some? && s.next.value.id == id then s.next
    else None
  }

  function Update(s: Slot, g: Gen): Slot {
    if s.current.Some? && s.current.value.id == g.id then s.(current := Some(g)) else s.(next := Some(g))
  }

  /** `_reserve_locked` up to the choice of the generation. */
  function Pick(s: Slot, preferred: Option<nat>, newId: nat): (r: Option<(Slot, Gen)>) {
    if preferred.Some? then
      var g := GenOf(s, preferred.value);
      if g.Some? && Admitting(g.value.state) then Some((s, g.value)) else None
    else if s.current.None? then
      var g := NewGen(newId);
      Some((s.(current := Some(g), queue := s.queue + [newId], top := newId), g))
    else if Admitting(s.current.value.state) then Some((s, s.current.value))
    else if s.next.Some? then Some((s, s.next.value))
    else
      var g := NewGen(newId);
      Some((s.(next := Some(g), queue := s.queue + [newId], top := newId), g))
  }

  /** The generation a granted reservation lands on. */
  function Granted(s: Slot, preferred: Option<nat>, newId: nat): Option<nat> {
    var p := Pick(s, preferred, newId);
    if p.Some? then Some(p.value.1.id) else None
  }

  function ReserveIn(s: Slot, preferred: Option<nat>, newId: nat, kind: Kind, tok: Token): Slot {
    var p := Pick(s, preferred, newId);
    if p.None? then s
    else Update(p.value.0, Add(p.value.1, kind, tok)).(used := s.used + {tok})
  }

  function CloseIn(s: Slot, g: Gen): Slot
    requires s.queue != []
  {
    var t := s.(queue := s.queue[1..]);
    if s.current.Some? && s.current.value.id == g.id then t.(current := s.next, next := None)
    else t
  }

  /** The generation whose job the single worker is at. */
  function AtWork(s: Slot): Option<Gen> {
    if s.queue == [] then None else GenOf(s, s.queue[0])
  }

  /** The generation an event other than a reservation is about. */
  function Target(s: Slot, e: Event): Option<Gen> {
    match e
    case Reserve(_, _, _, _) => None
    case Start | Drain | Close => AtWork(s)
    case _ => GenOf(s, e.id)
  }

  predicate Allowed(g: Gen, e: Event) {
    match e
    case Reserve(_, _, _, _) => false
    case Retain(_, tok) => g.state == Starting || g.state == Open
    case ReleaseLease(_, tok) => tok in g.leases
    case FinishSubmission(_, tok) => tok in g.running
    case TaskDone(_, tok) => tok in g.tasks
    case Begin(_) => g.ready != []
    case Start => !g.live
    case Drain => g.live && g.signals > 0 && g.state != Draining
    case Close => g.state == Draining
  }

  function Change(g: Gen, e: Event): (h: Gen)
    requires Allowed(g, e)
    ensures h.id == g.id
  {
    match e
    case Retain(_, tok) => g.(reservations := g.reservations + 1, tasks := g.tasks + {tok})
    case ReleaseLease(_, tok) => Drop(g.(leases := g.leases - {tok}))
    case FinishSubmission(_, tok) => Drop(g.(running := g.running - {tok}))
    case TaskDone(_, tok) => Drop(g.(tasks := g.tasks - {tok}))
    case Begin(_) => BeginGen(g)
    case Start => StartGen(g)
    case Drain => g.(state := Draining)
    case Close => g.(live := false, state := Closed)
  }

  /** Tokens are names of holders, so a holder arrives under a new one. */
  function TokensAfter(s: Slot, e: Event): set<Token> {
    if e.Reserve? || e.Retain? then s.used + {e.tok} else s.used
  }

  predicate Enabled(s: Slot, e: Event) {
    && (e.Reserve? || e.Retain? ==> e.tok !in s.used)
    && (if e.Reserve? then s.top < e.newId
        else Target(s, e).Some? && Allowed(Target(s, e).value, e))
  }

  function Step(s: Slot, e: Event): Slot {
    if !Enabled(s, e) then s
    else if e.Reserve? then ReserveIn(s, e.preferred, e.newId, e.kind, e.tok)
    else
      var g := Change(Target(s, e).value, e);
      if e.Close? then CloseIn(s, g) else Update(s, g).(used := TokensAfter(s, e))
  }

  function RunFrom(s: Slot, es: seq<Event>): Slot
    decreases |es|
  {
    if es == [] then s else RunFrom(Step(s, es[0]), es[1..])
  }

  function Run(es: seq<Event>): Slot {
    RunFrom(EMPTY, es)
  }

  // ------------------------------------------------------------ invariant

  /** Reservations held: leases, unfinished submissions and live descendants. */
  function Held(g: Gen): nat {
    |g.leases| + (|g.pending| + |g.ready| + |g.running|) + |g.tasks|
  }

  /** Submissions start in the order in which they were accepted, each once. */
  ghost predicate Fifo(g: Gen) {
    && g.accepted == g.begun + (g.ready + g.pending)
    && NoDup(g.accepted)
    && (forall t <- g.running :: t in g.begun)
  }

  ghost predicate Owned(g: Gen, used: set<Token>) {
    && (forall t <- g.accepted :: t in used)
    && g.leases <= used
    && g.tasks <= used
  }

  /** How state, loop, count and seal signal determine each other. */
  ghost predicate Life(g: Gen) {
    && g.signals == (if g.live && g.reservations == 0 then 1 else 0)
    && (if g.live then
          && g.pending == []
          && (g.state == Open || g.state == Sealing || g.state == Draining)
          && (g.state == Open <==> g.reservations > 0)
        else
          && g.begun == [] && g.ready == [] && g.running == {} && g.tasks == {}
          && (g.state == Sealing || (g.state == Queued && g.reservations > 0)))
  }

  ghost predicate GenInv(g: Gen, used: set<Token>) {
    g.reservations == Held(g) && Fifo(g) && Owned(g, used) && Life(g)
  }

  function IdsOf(o: Option<Gen>): seq<nat> {
    if o.Some? then [o.value.id] else []
  }

  ghost predicate Inv(s: Slot) {
    && s.queue == IdsOf(s.current) + IdsOf(s.next)
    && (s.current.Some? ==> GenInv(s.current.value, s.used) && s.current.value.id <= s.top)
    && (s.next.Some? ==>
          && s.current.Some?
          && GenInv(s.next.value, s.used)
          && s.current.value.id < s.next.value.id <= s.top
          && !s.next.value.live)
  }

  lemma AddKeeps(g: Gen, used: set<Token>, kind: Kind, tok: Token)
    requires g.reservations == Held(g) && Fifo(g) && Owned(g, used) && tok !in used
    requires if g.live then Life(g) && g.state == Open else g == NewGen(g.id) || Life(g)
    ensures GenInv(Add(g, kind, tok), used + {tok})
  {
    var h := Add(g, kind, tok);
    if kind == Submission {
      assert g.accepted + [tok] == g.begun + ((g.ready + g.pending) + [tok]);
      assert h.ready + h.pending == (g.ready + g.pending) + [tok];
    }
  }

  /** A holder leaves: `g` is the generation with the holder already taken off. */
  lemma DropKeeps(g: Gen, used: set<Token>)
    requires g.reservations == Held(g) + 1 && Fifo(g) && Owned(g, used) && Life(g)
    ensures GenInv(Drop(g), used)
  {
  }

  lemma BeginKeeps(g: Gen, used: set<Token>)
    requires GenInv(g, used) && g.ready != []
    ensures GenInv(BeginGen(g), used)
  {
    var t, h := g.ready[0], BeginGen(g);
    assert g.accepted == h.begun + (h.ready + h.pending);
    assert g.accepted[|g.begun|] == t;
    assert forall i | 0 <= i < |g.begun| :: g.begun[i] == g.accepted[i];
  }

  lemma LeaveKeeps(g: Gen, e: Event, used: set<Token>)
    requires GenInv(g, used) && Allowed(g, e) && (e.ReleaseLease? || e.FinishSubmission? || e.TaskDone?)
    ensures GenInv(Change(g, e), used)
  {
    match e
    case ReleaseLease(_, tok) => DropKeeps(g.(leases := g.leases - {tok}), used);
    case FinishSubmission(_, tok) => DropKeeps(g.(running := g.running - {tok}), used);
    case TaskDone(_, tok) => DropKeeps(g.(tasks := g.tasks - {tok}), used);
  }

  lemma StartKeeps(g: Gen, used: set<Token>)
    requires GenInv(g, used) && !g.live
    ensures GenInv(StartGen(g), used)
  {
    assert g.ready + g.pending + [] == g.ready + g.pending;
  }

  lemma ChangeKeeps(g: Gen, e: Event, used: set<Token>)
    requires GenInv(g, used) && Allowed(g, e) && !e.Close? && (e.Retain? ==> e.tok !in used)
    ensures GenInv(Change(g, e), if e.Retain? then used + {e.tok} else used)
    ensures !e.Start? ==> Change(g, e).live == g.live
  {
    match e
    case ReleaseLease(_, _) => LeaveKeeps(g, e, used);
    case FinishSubmission(_, _) => LeaveKeeps(g, e, used);
    case TaskDone(_, _) => LeaveKeeps(g, e, used);
    case Begin(_) => BeginKeeps(g, used);
    case Start => StartKeeps(g, used);
    case _ =>
  }

  lemma UpdateKeeps(s: Slot, h: Gen, used: set<Token>)
    requires Inv(s) && s.used <= used && GenInv(h, used) && GenOf(s, h.id).Some?
    requires h.live ==> AtWork(s).Some? && AtWork(s).value.id == h.id
    ensures Inv(Update(s, h).(used := used))
  {
  }

  lemma CreateKeeps(s: Slot, h: Gen, used: set<Token>)
    requires Inv(s) && s.used <= used && GenInv(h, used) && s.next.None? && s.top < h.id && !h.live
    ensures s.current.None? ==> Inv(Slot(Some(h), None, s.queue + [h.id], h.id, used))
    ensures s.current.Some? ==> Inv(Slot(s.current, Some(h), s.queue + [h.id], h.id, used))
  {
  }

  /** A reservation lands on a generation that has not been sealed for good. */
  lemma PickFacts(s: Slot, preferred: Option<nat>, newId: nat)
    requires Inv(s) && s.top < newId && Pick(s, preferred, newId).Some?
    ensures var (t, g) := Pick(s, preferred, newId).value;
            if g.id == newId then
              && g == NewGen(newId) && s.next.None? && t.queue == s.queue + [newId] && t.top == newId && t.used == s.used
              && (if s.current.None? then t.current == Some(g) && t.next.None? else t.current == s.current && t.next == Some(g))
            else t == s && GenOf(s, g.id) == Some(g) && (g.live ==> g.state == Open)
  {
  }

  lemma ReserveKeepsInv(s: Slot, e: Event)
    requires Inv(s) && e.Reserve? && Enabled(s, e)
    ensures Inv(Step(s, e))
  {
    var r := Pick(s, e.preferred, e.newId);
    if r.Some? {
      PickFacts(s, e.preferred, e.newId);
      var g, h := r.value.1, Add(r.value.1, e.kind, e.tok);
      AddKeeps(g, s.used, e.kind, e.tok);
      if g.id == e.newId {
        CreateKeeps(s, h, s.used + {e.tok});
      } else {
        UpdateKeeps(s, h, s.used + {e.tok});
      }
    }
  }

  lemma ChangeKeepsInv(s: Slot, e: Event)
    requires Inv(s) && Enabled(s, e) && !e.Reserve? && !e.Close?
    ensures Inv(Update(s, Change(Target(s, e).value, e)).(used := TokensAfter(s, e)))
  {
    ChangeKeeps(Target(s, e).value, e, s.used);
    UpdateKeeps(s, Change(Target(s, e).value, e), TokensAfter(s, e));
  }

  lemma CloseKeepsInv(s: Slot)
    requires Inv(s) && Enabled(s, Close)
    ensures Inv(CloseIn(s, Change(AtWork(s).value, Close)))
  {
  }

  lemma StepKeepsInv(s: Slot, e: Event)
    requires Inv(s)
    ensures Inv(Step(s, e))
  {
    if Enabled(s, e) {
      if e.Reserve? {
        ReserveKeepsInv(s, e);
      } else if e.Close? {
        CloseKeepsInv(s);
      } else {
        ChangeKeepsInv(s, e);
      }
    }
  }

  lemma {:induction false} RunKeepsInv(s: Slot, es: seq<Event>)
    requires Inv(s)
    ensures Inv(RunFrom(s, es))
    decreases |es|
  {
    if es != [] {
      StepKeepsInv(s, es[0]);
      RunKeepsInv(Step(s, es[0]), es[1..]);
    }
  }

  // ------------------------------------------------- what every run satisfies

  ghost predicate Present(s: Slot, g: Gen) {
    s.current == Some(g) || s.next == Some(g)
  }

  /** The reservation count is exactly the number of holders, DRAINING means
      that nothing is held and every accepted submission has been started once
      and in order, and the seal signal is sent once, when a started generation
      reaches zero. */
  lemma LedgerInEveryRun(es: seq<Event>, g: Gen)
    requires Present(Run(es), g)
    ensures g.reservations == |g.leases| + (|g.pending| + |g.ready| + |g.running|) + |g.tasks|
    ensures g.signals <= 1 && (g.signals == 1 <==> g.live && g.reservations == 0)
    ensures NoDup(g.begun) && g.begun <= g.accepted
    ensures g.state == Draining ==> g.reservations == 0 && g.begun == g.accepted && g.signals == 1
    ensures g.state != Starting && g.state != Closed
    ensures g.ready != [] ==> g.live
  {
    RunKeepsInv(EMPTY, es);
    assert forall i | 0 <= i < |g.begun| :: g.begun[i] == g.accepted[i];
    if g.state == Draining {
      assert g.ready == [] && g.pending == [];
    }
  }

  /** The executor's queue is [current, next], ids increase along it and only
      its head can have a loop. */
  lemma QueueInEveryRun(es: seq<Event>)
    ensures var s := Run(es);
            && s.queue == IdsOf(s.current) + IdsOf(s.next)
            && (s.next.Some? ==> s.current.Some? && s.current.value.id < s.next.value.id && !s.next.value.live)
            && (AtWork(s).Some? <==> s.current.Some?) && (AtWork(s).Some? ==> AtWork(s) == s.current)
  {
    RunKeepsInv(EMPTY, es);
  }

  /** A release by a holder never finds the count at zero. */
  lemma NoUnderflow(es: seq<Event>, e: Event)
    requires Enabled(Run(es), e) && (e.ReleaseLease? || e.FinishSubmission? || e.TaskDone?)
    ensures Target(Run(es), e).value.reservations > 0
  {
    RunKeepsInv(EMPTY, es);
    var g := Target(Run(es), e).value;
    assert g.leases != {} || g.running != {} || g.tasks != {};
  }

  /** What one event can do to a generation `g`, `o` being what is left of it. */
  ghost predicate Moves(s: Slot, e: Event, g: Gen, o: Option<Gen>) {
    if o.None? then e.Close? && g.state == Draining
    else
      || o.value == g
      || (e.Reserve? && e.tok !in s.used && (g.live ==> g.state == Open) && o.value == Add(g, e.kind, e.tok))
      || (!e.Reserve? && !e.Close? && Target(s, e) == Some(g) && Allowed(g, e) && o.value == Change(g, e))
  }

  lemma StepOnGen(s: Slot, e: Event, id: nat)
    requires Inv(s) && GenOf(s, id).Some?
    ensures Moves(s, e, GenOf(s, id).value, GenOf(Step(s, e), id))
  {
    if Enabled(s, e) {
      if e.Reserve? {
        if Pick(s, e.preferred, e.newId).Some? {
          PickFacts(s, e.preferred, e.newId);
          ReserveAt(s, e, id);
        }
      } else if e.Close? {
        assert AtWork(s) == s.current;
      } else {
        var g := Target(s, e).value;
        assert GenOf(s, g.id) == Some(g) && GenOf(Step(s, e), g.id) == Some(Change(g, e));
      }
    }
  }

  /** A granted reservation changes the generation it lands on and no other. */
  lemma ReserveAt(s: Slot, e: Event, id: nat)
    requires Inv(s) && e.Reserve? && Enabled(s, e) && Pick(s, e.preferred, e.newId).Some?
    ensures var g := Pick(s, e.preferred, e.newId).value.1;
            GenOf(Step(s, e), id) == if id == g.id then Some(Add(g, e.kind, e.tok)) else GenOf(s, id)
  {
    PickFacts(s, e.preferred, e.newId);
  }

  lemma ReserveOnAbsent(s: Slot, e: Event, id: nat)
    requires Inv(s) && GenOf(s, id).None? && id <= s.top && Enabled(s, e) && e.Reserve?
    ensures GenOf(Step(s, e), id).None? && s.top <= Step(s, e).top
  {
    if Pick(s, e.preferred, e.newId).Some? {
      PickFacts(s, e.preferred, e.newId);
      ReserveAt(s, e, id);
    }
  }

  lemma ChangeOnAbsent(s: Slot, g: Gen, used: set<Token>, id: nat)
    requires GenOf(s, id).None? && GenOf(s, g.id).Some?
    ensures GenOf(Update(s, g).(used := used), id).None?
  {
  }

  lemma StepOnAbsent(s: Slot, e: Event, id: nat)
    requires Inv(s) && GenOf(s, id).None? && id <= s.top
    ensures GenOf(Step(s, e), id).None? && s.top <= Step(s, e).top
  {
    if Enabled(s, e) {
      if e.Reserve? {
        ReserveOnAbsent(s, e, id);
      } else if !e.Close? {
        ChangeOnAbsent(s, Change(Target(s, e).value, e), TokensAfter(s, e), id);
      }
    }
  }

  lemma {:induction false} AbsentForGood(s: Slot, es: seq<Event>, id: nat)
    requires Inv(s) && GenOf(s, id).None? && id <= s.top
    ensures GenOf(RunFrom(s, es), id).None?
    decreases |es|
  {
    if es != [] {
      StepKeepsInv(s, es[0]);
      StepOnAbsent(s, es[0], id);
      AbsentForGood(Step(s, es[0]), es[1..], id);
    }
  }

  /** Once a started generation has reached zero it never counts again: until
      it closes, for good, it is unchanged except for SEALING -> DRAINING. */
  lemma {:induction false} ZeroIsFinal(s: Slot, es: seq<Event>, id: nat)
    requires Inv(s) && GenOf(s, id).Some? && GenOf(s, id).value.live && GenOf(s, id).value.reservations == 0
    ensures var g, o := GenOf(s, id).value, GenOf(RunFrom(s, es), id);
            o.Some? ==> o.value == g || o.value == g.(state := Draining)
    decreases |es|
  {
    if es != [] {
      var s' := Step(s, es[0]);
      StepKeepsInv(s, es[0]);
      StepOnGen(s, es[0], id);
      if GenOf(s', id).None? {
        AbsentForGood(s', es[1..], id);
      } else {
        assert GenOf(s', id).value.reservations == 0;
        ZeroIsFinal(s', es[1..], id);
      }
    }
  }

  lemma AcceptedGrows(s: Slot, e: Event, g: Gen, o: Option<Gen>)
    requires Moves(s, e, g, o) && o.Some?
    ensures g.accepted <= o.value.accepted
  {
  }

  /** What a generation has accepted it keeps, and it closes only after having
      started all of it, each submission once and in order of acceptance. */
  lemma {:induction false} AcceptedIsStarted(s: Slot, es: seq<Event>, id: nat)
    requires Inv(s) && GenOf(s, id).Some?
    ensures var g, o := GenOf(s, id).value, GenOf(RunFrom(s, es), id);
            o.Some? ==> g.accepted <= o.value.accepted && (o.value.state == Draining ==> o.value.begun == o.value.accepted)
    decreases |es|
  {
    if es != [] {
      var s' := Step(s, es[0]);
      StepKeepsInv(s, es[0]);
      StepOnGen(s, es[0], id);
      if GenOf(s', id).None? {
        AbsentForGood(s', es[1..], id);
      } else {
        AcceptedGrows(s, es[0], GenOf(s, id).value, GenOf(s', id));
        AcceptedIsStarted(s', es[1..], id);
      }
    }
  }

  // ----------------------------------------------------------------- leases

  ghost predicate Leased(s: Slot, id: nat, tok: Token) {
    GenOf(s, id).Some? && tok in GenOf(s, id).value.leases
  }

  lemma LeaseMoves(s: Slot, e: Event, g: Gen, o: Option<Gen>, tok: Token)
    requires GenInv(g, s.used) && Moves(s, e, g, o) && tok in g.leases && e != ReleaseLease(g.id, tok)
    requires e.ReleaseLease? && Target(s, e) == Some(g) ==> e.id == g.id
    ensures o.Some? && tok in o.value.leases
    ensures Admitting(g.state) ==> Admitting(o.value.state)
  {
    assert g.leases != {};
    if o.Some? && o.value != g && !e.Reserve? && (e.ReleaseLease? || e.FinishSubmission? || e.TaskDone?) {
      assert o.value.leases != {} by { assert tok in o.value.leases; }
      ChangeKeeps(g, e, s.used);
    }
  }

  lemma LeaseStep(s: Slot, e: Event, id: nat, tok: Token)
    requires Inv(s) && Leased(s, id, tok) && e != ReleaseLease(id, tok)
    ensures Leased(Step(s, e), id, tok)
    ensures Admitting(GenOf(s, id).value.state) ==> Admitting(GenOf(Step(s, e), id).value.state)
  {
    StepOnGen(s, e, id);
    LeaseMoves(s, e, GenOf(s, id).value, GenOf(Step(s, e), id), tok);
  }

  /** A lease on an admitting generation keeps it in its lane and admitting
      until that very lease is released. */
  lemma {:induction false} LeaseKeepsAdmitting(s: Slot, es: seq<Event>, id: nat, tok: Token)
    requires Inv(s) && Leased(s, id, tok) && ReleaseLease(id, tok) !in es
    ensures Leased(RunFrom(s, es), id, tok)
    ensures Admitting(GenOf(s, id).value.state) ==> Admitting(GenOf(RunFrom(s, es), id).value.state)
    decreases |es|
  {
    if es != [] {
      StepKeepsInv(s, es[0]);
      LeaseStep(s, es[0], id, tok);
      LeaseKeepsAdmitting(Step(s, es[0]), es[1..], id, tok);
    }
  }

  /** When the holder of a lease may submit to its own generation: always,
      except while that generation waits unstarted in SEALING. */
  lemma PinnedReservation(es: seq<Event>, id: nat, tok: Token, newId: nat)
    requires Leased(Run(es), id, tok)
    ensures var g := GenOf(Run(es), id).value;
            Pick(Run(es), Some(id), newId).None? <==> g.state == Sealing && !g.live
  {
    RunKeepsInv(EMPTY, es);
    assert GenOf(Run(es), id).value.leases != {};
  }

  /** The lease that can be refused to its holder is exactly one taken while the
      lane's current generation is past admission and its queued successor has
      already been released to zero. */
  lemma UnpinnedLease(es: seq<Event>, newId: nat)
    requires Run(es).top < newId
    ensures var s := Run(es);
            && Pick(s, None, newId).Some?
            && (!Admitting(Pick(s, None, newId).value.1.state) <==>
                s.current.Some? && !Admitting(s.current.value.state) && s.next.Some? && s.next.value.state == Sealing)
  {
    RunKeepsInv(EMPTY, es);
  }

  /** Such a run exists, so pinned submits can fail during a lease; starting the
      generation ends the refusal. */
  lemma RefusedPinnedSubmit()
    ensures var es := [Reserve(None, 1, Lease, 1), Start, ReleaseLease(1, 1)] +
                      [Reserve(None, 2, Lease, 2), ReleaseLease(2, 2), Reserve(None, 3, Lease, 3)];
            && Leased(Run(es), 2, 3) && Pick(Run(es), Some(2), 9).None?
            && Pick(RunFrom(Run(es), [Drain, Close, Start]), Some(2), 9).Some?
  {
    LeaseThenRelease();
    SealedSuccessor();
    RunConcat(EMPTY, [Reserve(None, 1, Lease, 1), Start, ReleaseLease(1, 1)],
                  [Reserve(None, 2, Lease, 2), ReleaseLease(2, 2), Reserve(None, 3, Lease, 3)]);
    StartedSuccessor();
  }

  const SEALED := Gen(1, Sealing, 0, true, [], [], [], [], {}, {}, {}, 1)
  const REVIVED := Slot(Some(SEALED), Some(Gen(2, Sealing, 1, false, [], [], [], [], {}, {3}, {}, 0)), [1, 2], 2, {1, 2, 3})

  lemma LeaseThenRelease()
    ensures RunFrom(EMPTY, [Reserve(None, 1, Lease, 1), Start, ReleaseLease(1, 1)]) == Slot(Some(SEALED), None, [1], 1, {1})
  {
    var s := Step(EMPTY, Reserve(None, 1, Lease, 1));
    assert s.queue == [1] && s.used == {1} && s.current.value.leases == {1};
    var t := Step(s, Start);
    assert t.current.value.ready == [];
    assert Step(t, ReleaseLease(1, 1)).current.value.leases == {};
  }

  lemma SealedSuccessor()
    ensures RunFrom(Slot(Some(SEALED), None, [1], 1, {1}),
                    [Reserve(None, 2, Lease, 2), ReleaseLease(2, 2), Reserve(None, 3, Lease, 3)]) == REVIVED
  {
    var s := Step(Slot(Some(SEALED), None, [1], 1, {1}), Reserve(None, 2, Lease, 2));
    assert s.queue == [1, 2] && s.used == {1, 2} && s.next.value.leases == {2};
    var t := Step(s, ReleaseLease(2, 2));
    assert t.next.value.leases == {};
    var u := Step(t, Reserve(None, 3, Lease, 3));
    assert u.used == {1, 2, 3} && u.next.value.leases == {3};
  }

  lemma StartedSuccessor()
    ensures Pick(RunFrom(REVIVED, [Drain, Close, Start]), Some(2), 9).Some?
  {
    var s := Step(REVIVED, Drain);
    assert Step(s, Close).queue == [2];
  }

  lemma {:induction false} RunConcat(s: Slot, es: seq<Event>, fs: seq<Event>)
    ensures RunFrom(s, es + fs) == RunFrom(RunFrom(s, es), fs)
    decreases |es|
  {
    if es == [] {
      assert es + fs == fs;
    } else {
      assert (es + fs)[0] == es[0] && (es + fs)[1..] == es[1..] + fs;
      RunConcat(Step(s, es[0]), es[1..], fs);
    }
  }

  lemma {:induction false} RunSnoc(es: seq<Event>, e: Event)
    ensures Run(es + [e]) == Step(Run(es), e)
  {
    RunConcat(EMPTY, es, [e]);
    assert [e][1..] == [];
  }

  // ------------------------------------------------------------- pressure

  /** The lane load that `snapshot` reports to the selector. */
  function Pressure(s: Slot): int {
    (if s.current.Some? then s.current.value.reservations else 0) +
    (if s.next.Some? then s.next.value.reservations else 0)
  }

  /** An unpinned lease on a lane raises its pressure by exactly one. */
  lemma LeaseRaisesPressure(s: Slot, newId: nat, tok: Token)
    requires Inv(s) && s.top < newId && tok !in s.used
    ensures Pressure(Step(s, Reserve(None, newId, Lease, tok))) == Pressure(s) + 1
  {
    PickFacts(s, None, newId);
  }

  // --------------------------------------------------- what each event does

  ghost predicate Here(s: Slot, g: Gen) {
    s.current == Some(g) || s.next == Some(g)
  }

  /** Between `s` and `t` generation `g` became `h` in its place, and nothing else on
      the lane changed. */
  ghost predicate Became(s: Slot, t: Slot, g: Gen, h: Gen) {
    && t.queue == s.queue && t.top == s.top
    && ((s.current == Some(g) && t.current == Some(h) && t.next == s.next) ||
        (s.next == Some(g) && t.next == Some(h) && t.current == s.current))
  }

  /** `h` is `g` with one holder more. */
  ghost predicate Holds(g: Gen, h: Gen, kind: Kind, tok: Token) {
    match kind
    case Lease => h == g.(reservations := g.reservations + 1, leases := g.leases + {tok})
    case Submission =>
      if g.live then h == g.(reservations := g.reservations + 1, accepted := g.accepted + [tok], ready := g.ready + [tok])
      else h == g.(reservations := g.reservations + 1, accepted := g.accepted + [tok], pending := g.pending + [tok])
  }

  /** A generation that was just made, with its first holder. */
  ghost predicate First(h: Gen, id: nat, kind: Kind, tok: Token) {
    && h.id == id && h.state == Queued && h.reservations == 1 && !h.live && h.signals == 0
    && h.ready == [] && h.begun == [] && h.running == {} && h.tasks == {}
    && h.leases == (if kind == Lease then {tok} else {})
    && h.accepted == h.pending == (if kind == Submission then [tok] else [])
  }

  lemma AddHolds(g: Gen, kind: Kind, tok: Token)
    ensures Holds(g, Add(g, kind, tok), kind, tok)
  {
  }

  lemma AddFirst(id: nat, kind: Kind, tok: Token)
    ensures First(Add(NewGen(id), kind, tok), id, kind, tok)
  {
  }

  /** As they are in every run. */
  ghost predicate TwoIds(s: Slot) {
    s.current.Some? && s.next.Some? ==> s.current.value.id != s.next.value.id
  }

  lemma UpdateBecame(s: Slot, g: Gen, h: Gen, used: set<Token>)
    requires TwoIds(s) && Here(s, g) && h.id == g.id
    ensures Became(s, Update(s, h).(used := used), g, h)
  {
  }

  /** An unpinned reservation joins the current generation while that admits ... */
  lemma UnpinnedJoins(s: Slot, newId: nat, kind: Kind, tok: Token)
    requires TwoIds(s) && s.top < newId && tok !in s.used && s.current.Some?
    requires s.current.value.state == Queued || s.current.value.state == Starting || s.current.value.state == Open
    ensures var t := Step(s, Reserve(None, newId, kind, tok));
            && t.current.Some? && Holds(s.current.value, t.current.value, kind, tok)
            && Became(s, t, s.current.value, t.current.value) && t.used == s.used + {tok}
  {
    AddHolds(s.current.value, kind, tok);
    UpdateBecame(s, s.current.value, Add(s.current.value, kind, tok), s.used + {tok});
  }

  /** ... else the successor, admitting or not ... */
  lemma UnpinnedQueues(s: Slot, newId: nat, kind: Kind, tok: Token)
    requires TwoIds(s) && s.top < newId && tok !in s.used && s.current.Some? && s.next.Some?
    requires s.current.value.state == Sealing || s.current.value.state == Draining || s.current.value.state == Closed
    ensures var t := Step(s, Reserve(None, newId, kind, tok));
            && t.next.Some? && Holds(s.next.value, t.next.value, kind, tok)
            && Became(s, t, s.next.value, t.next.value) && t.used == s.used + {tok}
  {
    AddHolds(s.next.value, kind, tok);
    UpdateBecame(s, s.next.value, Add(s.next.value, kind, tok), s.used + {tok});
  }

  /** ... and a generation is made only where there is no current one, or no successor
      to one past admission. */
  lemma UnpinnedCreates(s: Slot, newId: nat, kind: Kind, tok: Token)
    requires Inv(s) && s.top < newId && tok !in s.used
    requires s.current.None? ||
             (s.next.None? && (s.current.value.state == Sealing || s.current.value.state == Draining || s.current.value.state == Closed))
    ensures var t := Step(s, Reserve(None, newId, kind, tok));
            && t.queue == s.queue + [newId] && t.top == newId && t.used == s.used + {tok}
            && (if s.current.None? then t.current.Some? && First(t.current.value, newId, kind, tok) && t.next.None?
                else t.current == s.current && t.next.Some? && First(t.next.value, newId, kind, tok))
  {
    AddFirst(newId, kind, tok);
  }

  /** A pinned reservation joins its own generation while that is here and admits ... */
  lemma PinnedJoins(s: Slot, g: Gen, newId: nat, kind: Kind, tok: Token)
    requires TwoIds(s) && s.top < newId && tok !in s.used && Here(s, g)
    requires g.state == Queued || g.state == Starting || g.state == Open
    ensures exists h :: Holds(g, h, kind, tok) && Became(s, Step(s, Reserve(Some(g.id), newId, kind, tok)), g, h)
    ensures Step(s, Reserve(Some(g.id), newId, kind, tok)).used == s.used + {tok}
  {
    AddHolds(g, kind, tok);
    UpdateBecame(s, g, Add(g, kind, tok), s.used + {tok});
    assert Step(s, Reserve(Some(g.id), newId, kind, tok)) == Update(s, Add(g, kind, tok)).(used := s.used + {tok});
  }

  /** ... and is refused, with nothing changed, in any other case. */
  lemma PinnedRefused(s: Slot, id: nat, newId: nat, kind: Kind, tok: Token)
    requires s.current.Some? && s.current.value.id == id ==>
               s.current.value.state == Sealing || s.current.value.state == Draining || s.current.value.state == Closed
    requires s.next.Some? && s.next.value.id == id ==>
               s.next.value.state == Sealing || s.next.value.state == Draining || s.next.value.state == Closed
    ensures Step(s, Reserve(Some(id), newId, kind, tok)) == s
  {
  }

  // ---- holders leave

  /** `h` is `g` with one holder less; the last one seals a generation that admits, and
      sends the signal to a loop. */
  ghost predicate Dropped(g: Gen, h: Gen) {
    && h.reservations == g.reservations - 1
    && h.state == (if h.reservations == 0 && (g.state == Queued || g.state == Starting || g.state == Open) then Sealing else g.state)
    && h.signals == (if h.reservations == 0 && g.live then g.signals + 1 else g.signals)
    && h == g.(reservations := h.reservations, state := h.state, signals := h.signals,
               running := h.running, leases := h.leases, tasks := h.tasks)
  }

  ghost predicate Leaver(g: Gen, h: Gen, e: Event) {
    match e
    case ReleaseLease(_, tok) => tok in g.leases && h.leases == g.leases - {tok} && h.running == g.running && h.tasks == g.tasks
    case FinishSubmission(_, tok) => tok in g.running && h.running == g.running - {tok} && h.leases == g.leases && h.tasks == g.tasks
    case TaskDone(_, tok) => tok in g.tasks && h.tasks == g.tasks - {tok} && h.leases == g.leases && h.running == g.running
    case _ => false
  }

  /** A holder that leaves is one less of its kind, and one reservation less. */
  lemma LeavingDoes(s: Slot, g: Gen, e: Event)
    requires TwoIds(s) && Here(s, g)
    requires (e.ReleaseLease? && e.tok in g.leases) || (e.FinishSubmission? && e.tok in g.running) || (e.TaskDone? && e.tok in g.tasks)
    requires e.id == g.id
    ensures exists h :: Dropped(g, h) && Leaver(g, h, e) && Became(s, Step(s, e), g, h)
    ensures Step(s, e).used == s.used
  {
    var h := Change(g, e);
    DropIs(g, e);
    UpdateBecame(s, g, h, s.used);
    assert Step(s, e) == Update(s, h).(used := s.used);
  }

  lemma DropIs(g: Gen, e: Event)
    requires Allowed(g, e) && (e.ReleaseLease? || e.FinishSubmission? || e.TaskDone?)
    ensures Dropped(g, Change(g, e)) && Leaver(g, Change(g, e), e)
  {
  }

  /** A descendant is retained by a started generation that is not yet sealed ... */
  lemma RetainDoes(s: Slot, g: Gen, tok: Token)
    requires TwoIds(s) && Here(s, g) && tok !in s.used && (g.state == Open || g.state == Starting)
    ensures var t := Step(s, Retain(g.id, tok));
            Became(s, t, g, g.(reservations := g.reservations + 1, tasks := g.tasks + {tok})) && t.used == s.used + {tok}
  {
    var h := g.(reservations := g.reservations + 1, tasks := g.tasks + {tok});
    UpdateBecame(s, g, h, s.used + {tok});
    assert Step(s, Retain(g.id, tok)) == Update(s, h).(used := s.used + {tok});
  }

  /** ... and by no other. */
  lemma RetainRefused(s: Slot, id: nat, tok: Token)
    requires s.current.Some? && s.current.value.id == id ==> s.current.value.state != Open && s.current.value.state != Starting
    requires s.next.Some? && s.next.value.id == id ==> s.next.value.state != Open && s.next.value.state != Starting
    ensures Step(s, Retain(id, tok)) == s
  {
  }

  // ---- the worker and the loop

  /** The worker starts the current generation once: its loop is there, its waiting
      submissions are handed over, and it opens if anything holds it and is sealed if not. */
  lemma StartDoes(s: Slot)
    requires Inv(s)
    ensures var t := Step(s, Start);
            if s.current.None? || s.current.value.live then t == s
            else
              var g := s.current.value;
              t == s.(current := Some(g.(live := true, pending := [], ready := g.ready + g.pending,
                                         state := if g.reservations > 0 then Open else Sealing,
                                         signals := if g.reservations > 0 then g.signals else g.signals + 1)))
  {
  }

  /** The loop starts the oldest submission handed to it. */
  lemma BeginDoes(s: Slot, g: Gen)
    requires TwoIds(s) && Here(s, g)
    ensures var t := Step(s, Begin(g.id));
            if g.ready == [] then t == s
            else Became(s, t, g, g.(ready := g.ready[1..], begun := g.begun + [g.ready[0]], running := g.running + {g.ready[0]}))
  {
    if g.ready != [] {
      UpdateBecame(s, g, BeginGen(g), s.used);
    }
  }

  /** A loop that was sent the signal drains, and a drained generation makes place for
      its successor, whose job is the next one of the worker. */
  lemma EndingDoes(s: Slot)
    requires Inv(s)
    ensures Step(s, Drain) ==
            if s.current.Some? && s.current.value.live && s.current.value.signals > 0 && s.current.value.state != Draining
            then s.(current := Some(s.current.value.(state := Draining))) else s
    ensures Step(s, Close) ==
            if s.current.Some? && s.current.value.state == Draining then s.(current := s.next, next := None, queue := IdsOf(s.next)) else s
  {
  }
}
