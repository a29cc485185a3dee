/**
  Backend epochs of a Stage: the first work binds a backend, and a lease when it is
  the carrier; the end of the last work unbinds it and gives the lease back.  A
  handle whose count reaches zero tells the Stage in a second critical section.
 */
module Epoch {
  import opened Common

  datatype Backend = Caller(loop: nat) | Carrier

  /** Handles are numbered by `homes`, which records the backend each was created
      for.  `unsubmitted` are created and not yet retained, `quiescing` have reached
      zero and not yet told the Stage.  Leases are numbered as they are acquired:
      `lease` is held, `parting` are dropped and not yet given back. */
  datatype State = State(
    backend: Option<Backend>,
    active: set<nat>,
    adopted: map<nat, nat>,
    homes: seq<Backend>,
    pending: seq<nat>,
    unsubmitted: set<nat>,
    quiescing: multiset<nat>,
    lease: Option<nat>,
    leases: nat,
    parting: set<nat>,
    returned: seq<nat>)

  /** `choice` is the backend the surroundings suggest; it counts only when none is
      bound.  `Bind` is the first critical section of `create_task`. */
  datatype Event =
    | Go(choice: Backend)
    | Retain(handle: nat)
    | Release(handle: nat)
    | Quiesce(handle: nat)
    | Late(handle: nat)
    | Bind(loop: nat, choice: Backend)
    | Adopt(task: nat, loop: nat, choice: Backend)
    | AdoptedDone(task: nat)
    | GiveBack(lease: nat)

  const NEW := State(None, {}, map[], [], [], {}, multiset{}, None, 0, {}, [])

  predicate HasWork(s: State) {
    s.active != {} || s.adopted != map[]
  }

  function Resolve(s: State, choice: Backend): State {
    if s.backend.Some? then s
    else if choice.Carrier? then s.(backend := Some(Carrier), lease := Some(s.leases), leases := s.leases + 1)
    else s.(backend := Some(choice))
  }

  /** `_release_backend_if_quiescent_locked`. */
  function ReleaseIfIdle(s: State): State {
    if HasWork(s) then s
    else
      s.(backend := None, lease := None,
         parting := s.parting + if s.lease.Some? then {s.lease.value} else {})
  }

  function AddHandle(s: State): State
    requires s.backend.Some?
  {
    var h := |s.homes|;
    s.(active := s.active + {h}, homes := s.homes + [s.backend.value], pending := s.pending + [0],
       unsubmitted := s.unsubmitted + {h})
  }

  predicate Busy(s: State, h: nat) {
    h < |s.pending| && s.pending[h] > 0
  }

  /** A callback on a completed handle: it may not cross the epoch. */
  predicate AdmitsLate(s: State, h: nat) {
    h < |s.homes| && h < |s.pending| && h !in s.unsubmitted && (s.backend.Some? ==> s.backend.value == s.homes[h])
  }

  function Revive(s: State, h: nat): State
    requires h < |s.pending|
  {
    s.(active := s.active + {h}, pending := s.pending[h := s.pending[h] + 1])
  }

  function LateWork(s: State, h: nat): State
    requires AdmitsLate(s, h)
  {
    Revive(Resolve(s, s.homes[h]), h)
  }

  function RetainWork(s: State, h: nat): State
    requires h < |s.pending|
  {
    s.(pending := s.pending[h := s.pending[h] + 1], unsubmitted := s.unsubmitted - {h})
  }

  function ReleaseWork(s: State, h: nat): State
    requires Busy(s, h)
  {
    s.(pending := s.pending[h := s.pending[h] - 1],
       quiescing := if s.pending[h] == 1 then s.quiescing + multiset{h} else s.quiescing)
  }

  function Discard(s: State, h: nat): State {
    s.(quiescing := s.quiescing - multiset{h}, active := s.active - {h})
  }

  function QuiesceHandle(s: State, h: nat): State {
    ReleaseIfIdle(Discard(s, h))
  }

  /** Both `create_task` and `adopt` insist on the task's own loop. */
  function BindLoop(s: State, loop: nat, choice: Backend): (State, bool) {
    var t := Resolve(s, choice);
    if t.backend == Some(Caller(loop)) then (t, true) else (ReleaseIfIdle(t), false)
  }

  function Disown(s: State, task: nat): State {
    s.(adopted := s.adopted - {task})
  }

  function AdoptTask(s: State, task: nat, loop: nat, choice: Backend): State {
    var (t, ok) := BindLoop(s, loop, choice);
    if ok then t.(adopted := t.adopted[task := loop]) else t
  }

  function Step(s: State, e: Event): State {
    match e
    case Go(choice) => AddHandle(Resolve(s, choice))
    case Retain(h) => if Busy(s, h) || (h < |s.pending| && h in s.unsubmitted) then RetainWork(s, h) else s
    case Release(h) => if Busy(s, h) then ReleaseWork(s, h) else s
    case Quiesce(h) => if h in s.quiescing then QuiesceHandle(s, h) else s
    case Late(h) => if AdmitsLate(s, h) then LateWork(s, h) else s
    case Bind(loop, choice) => BindLoop(s, loop, choice).0
    case Adopt(t, loop, choice) => if t in s.adopted then s else AdoptTask(s, t, loop, choice)
    case AdoptedDone(t) => if t in s.adopted then ReleaseIfIdle(Disown(s, t)) else s
    case GiveBack(l) => if l in s.parting then s.(parting := s.parting - {l}, returned := s.returned + [l]) else s
  }

  function Run(s: State, es: seq<Event>): State
    decreases |es|
  {
    if es == [] then s else Run(Step(s, es[0]), es[1..])
  }

  lemma {:induction false} RunSnoc(s: State, es: seq<Event>, e: Event)
    ensures Run(s, es + [e]) == Step(Run(s, es), e)
    decreases |es|
  {
    if es == [] {
      assert es + [e] == [e] && [e][1..] == [];
    } else {
      assert (es + [e])[0] == es[0] && (es + [e])[1..] == es[1..] + [e];
      RunSnoc(Step(s, es[0]), es[1..], e);
    }
  }

  // --------------------------------------------------------------- invariant

  ghost predicate Tied(backend: Option<Backend>, lease: Option<nat>) {
    lease.Some? <==> backend == Some(Carrier)
  }

  /** All work lives on the one bound backend. */
  ghost predicate AtHome(backend: Option<Backend>, active: set<nat>, adopted: map<nat, nat>, homes: seq<Backend>) {
    && (forall h <- active :: h < |homes| && backend == Some(homes[h]))
    && (forall t <- adopted :: backend == Some(Caller(adopted[t])))
  }

  ghost predicate Ledger(lease: Option<nat>, leases: nat, parting: set<nat>, returned: seq<nat>) {
    && NoDup(returned)
    && (forall l: nat :: l < leases <==> lease == Some(l) || l in parting || l in returned)
    && (forall l <- parting :: l !in returned)
    && (lease.Some? ==> lease.value !in parting && lease.value !in returned)
  }

  ghost predicate Counts(homes: seq<Backend>, pending: seq<nat>, unsubmitted: set<nat>, quiescing: multiset<nat>) {
    && |homes| == |pending|
    && (forall h <- unsubmitted :: h < |pending| && pending[h] == 0 && h !in quiescing)
    && (forall h <- quiescing :: h < |pending|)
  }

  ghost predicate Inv(s: State) {
    && Tied(s.backend, s.lease)
    && (s.lease.Some? ==> HasWork(s))
    && AtHome(s.backend, s.active, s.adopted, s.homes)
    && Ledger(s.lease, s.leases, s.parting, s.returned)
    && Counts(s.homes, s.pending, s.unsubmitted, s.quiescing)
  }

  /** `Inv` but for a carrier backend that has no work yet. */
  ghost predicate Bound(s: State) {
    && Tied(s.backend, s.lease)
    && AtHome(s.backend, s.active, s.adopted, s.homes)
    && Ledger(s.lease, s.leases, s.parting, s.returned)
    && Counts(s.homes, s.pending, s.unsubmitted, s.quiescing)
  }

  lemma WorkIsBound(s: State)
    requires Bound(s) && HasWork(s)
    ensures s.backend.Some?
  {
    if s.active != {} {
      var h :| h in s.active;
    } else {
      var t :| t in s.adopted;
    }
  }

  lemma ResolveKeeps(s: State, choice: Backend)
    requires Inv(s)
    ensures Bound(Resolve(s, choice)) && Resolve(s, choice).backend.Some?
  {
    if HasWork(s) {
      WorkIsBound(s);
    }
    assert s.leases !in s.parting && s.leases !in s.returned;
  }

  lemma ReleaseKeeps(s: State)
    requires Bound(s)
    ensures Inv(ReleaseIfIdle(s))
  {
  }

  lemma BindKeeps(s: State, loop: nat, choice: Backend)
    requires Inv(s)
    ensures var (t, ok) := BindLoop(s, loop, choice);
            Inv(t) && (ok ==> t.backend == Some(Caller(loop)))
  {
    ResolveKeeps(s, choice);
    ReleaseKeeps(Resolve(s, choice));
  }

  lemma GoKeeps(s: State, choice: Backend)
    requires Inv(s)
    ensures Resolve(s, choice).backend.Some? && Inv(AddHandle(Resolve(s, choice)))
  {
    ResolveKeeps(s, choice);
    var t := Resolve(s, choice);
    assert |s.homes| in AddHandle(t).active;
  }

  lemma LateKeeps(s: State, h: nat)
    requires Inv(s) && AdmitsLate(s, h)
    ensures Inv(LateWork(s, h))
  {
    ResolveKeeps(s, s.homes[h]);
    assert h in LateWork(s, h).active;
  }

  lemma QuiesceKeeps(s: State, h: nat)
    requires Inv(s)
    ensures Inv(QuiesceHandle(s, h))
  {
    ReleaseKeeps(Discard(s, h));
  }

  lemma AdoptKeeps(s: State, task: nat, loop: nat, choice: Backend)
    requires Inv(s)
    ensures Inv(AdoptTask(s, task, loop, choice))
  {
    BindKeeps(s, loop, choice);
  }

  lemma AdoptedDoneKeeps(s: State, task: nat)
    requires Inv(s)
    ensures Inv(ReleaseIfIdle(Disown(s, task)))
  {
    ReleaseKeeps(Disown(s, task));
  }

  lemma GiveBackKeeps(s: State, l: nat)
    requires Inv(s)
    ensures Inv(Step(s, GiveBack(l)))
  {
  }

  lemma CountKeeps(s: State, h: nat)
    requires Inv(s)
    ensures Inv(Step(s, Retain(h))) && Inv(Step(s, Release(h)))
  {
  }

  lemma StepKeepsInv(s: State, e: Event)
    requires Inv(s)
    ensures Inv(Step(s, e))
  {
    match e
    case Go(choice) => GoKeeps(s, choice);
    case Retain(h) => CountKeeps(s, h);
    case Release(h) => CountKeeps(s, h);
    case Quiesce(h) => QuiesceKeeps(s, h);
    case Late(h) => if AdmitsLate(s, h) { LateKeeps(s, h); }
    case Bind(loop, choice) => BindKeeps(s, loop, choice);
    case Adopt(t, loop, choice) => AdoptKeeps(s, t, loop, choice);
    case AdoptedDone(t) => AdoptedDoneKeeps(s, t);
    case GiveBack(l) => GiveBackKeeps(s, l);
  }

  lemma {:induction false} RunKeepsInv(s: State, es: seq<Event>)
    requires Inv(s)
    ensures Inv(Run(s, es))
    decreases |es|
  {
    if es != [] {
      StepKeepsInv(s, es[0]);
      RunKeepsInv(Step(s, es[0]), es[1..]);
    }
  }

  // ---------------------------------------------------------------- theorems

  /** In every run: work implies a bound backend, every active handle was created
      for it and every adopted task runs on its loop; the carrier is bound exactly
      while a lease is held, and only while there is work; and every lease ever
      acquired is held, on its way back, or was returned, once. */
  lemma EpochInEveryRun(es: seq<Event>)
    ensures var s := Run(NEW, es);
            && (HasWork(s) ==> s.backend.Some?)
            && (forall h <- s.active :: h < |s.homes| && s.backend == Some(s.homes[h]))
            && (forall t <- s.adopted :: s.backend == Some(Caller(s.adopted[t])))
            && (s.lease.Some? <==> s.backend == Some(Carrier))
            && (s.lease.Some? ==> HasWork(s))
            && Ledger(s.lease, s.leases, s.parting, s.returned)
  {
    RunKeepsInv(NEW, es);
    var s := Run(NEW, es);
    if HasWork(s) {
      WorkIsBound(s);
    }
  }

  lemma StepKeepsBackend(s: State, e: Event)
    requires Inv(s) && HasWork(s) && HasWork(Step(s, e))
    ensures Step(s, e).backend == s.backend && Step(s, e).lease == s.lease
  {
    WorkIsBound(s);
  }

  ghost predicate AlwaysWorking(s: State, es: seq<Event>)
    decreases |es|
  {
    HasWork(s) && (es != [] ==> AlwaysWorking(Step(s, es[0]), es[1..]))
  }

  /** While a Stage has work its backend, its loop and its lease never change. */
  lemma {:induction false} EpochIsConstant(s: State, es: seq<Event>)
    requires Inv(s) && AlwaysWorking(s, es)
    ensures var t := Run(s, es); t.backend == s.backend && t.lease == s.lease && HasWork(t)
    decreases |es|
  {
    if es != [] {
      StepKeepsInv(s, es[0]);
      StepKeepsBackend(s, es[0]);
      EpochIsConstant(Step(s, es[0]), es[1..]);
    }
  }

  // ------------------------------------------------------------ lost handles

  /** What quiescence is for: pending work keeps its handle active. */
  ghost predicate Tracked(active: set<nat>, pending: seq<nat>) {
    forall h :: 0 <= h < |pending| && pending[h] > 0 ==> h in active
  }

  /** A late callback between the end of a handle's count and its report. */
  predicate Slips(s: State, e: Event) {
    e.Late? && AdmitsLate(s, e.handle) && e.handle in s.quiescing
  }

  ghost predicate NoSlip(s: State, es: seq<Event>)
    decreases |es|
  {
    es != [] ==> !Slips(s, es[0]) && NoSlip(Step(s, es[0]), es[1..])
  }

  ghost predicate Clean(active: set<nat>, pending: seq<nat>, quiescing: multiset<nat>, unsubmitted: set<nat>) {
    && Tracked(active, pending)
    && (forall h <- quiescing :: h < |pending| && pending[h] == 0 && h in active)
    && unsubmitted <= active
    && (forall h <- quiescing :: quiescing[h] == 1)
  }

  ghost predicate InvClean(s: State) {
    Inv(s) && Clean(s.active, s.pending, s.quiescing, s.unsubmitted)
  }

  lemma CountKeepsClean(s: State, h: nat)
    requires InvClean(s) && h < |s.pending|
    ensures h in s.active && RetainCase(s, h) ==> CleanState(RetainWork(s, h))
    ensures Busy(s, h) ==> CleanState(ReleaseWork(s, h))
  {
    assert Busy(s, h) ==> h !in s.quiescing && h in s.active;
  }

  predicate RetainCase(s: State, h: nat) {
    Busy(s, h) || h in s.unsubmitted
  }

  ghost predicate CleanState(s: State) {
    Clean(s.active, s.pending, s.quiescing, s.unsubmitted)
  }

  lemma IdleKeepsClean(s: State)
    requires CleanState(s)
    ensures CleanState(ReleaseIfIdle(s))
  {
  }

  lemma GoKeepsClean(s: State, choice: Backend)
    requires InvClean(s)
    ensures Resolve(s, choice).backend.Some? && CleanState(AddHandle(Resolve(s, choice)))
  {
  }

  lemma QuiesceKeepsClean(s: State, h: nat)
    requires InvClean(s) && h in s.quiescing
    ensures CleanState(QuiesceHandle(s, h))
  {
    assert h !in s.unsubmitted && s.pending[h] == 0;
    IdleKeepsClean(Discard(s, h));
  }

  lemma LateKeepsClean(s: State, h: nat)
    requires InvClean(s) && AdmitsLate(s, h) && h !in s.quiescing
    ensures CleanState(LateWork(s, h))
  {
  }

  lemma TaskKeepsClean(s: State, task: nat, loop: nat, choice: Backend)
    requires InvClean(s)
    ensures CleanState(BindLoop(s, loop, choice).0) && CleanState(AdoptTask(s, task, loop, choice))
    ensures CleanState(ReleaseIfIdle(Disown(s, task)))
  {
    IdleKeepsClean(Disown(s, task));
    IdleKeepsClean(Resolve(s, choice));
  }

  predicate OfHandle(e: Event) {
    e.Retain? || e.Release? || e.Quiesce? || e.Late?
  }

  lemma {:induction false} HandleKeepsClean(s: State, e: Event)
    requires InvClean(s) && !Slips(s, e) && OfHandle(e)
    ensures CleanState(Step(s, e))
  {
    match e
    case Retain(h) => if h < |s.pending| { CountKeepsClean(s, h); }
    case Release(h) => if h < |s.pending| { CountKeepsClean(s, h); }
    case Quiesce(h) => if h in s.quiescing { QuiesceKeepsClean(s, h); }
    case Late(h) => if AdmitsLate(s, h) { LateKeepsClean(s, h); }
  }

  lemma {:induction false} StepKeepsClean(s: State, e: Event)
    requires InvClean(s) && !Slips(s, e)
    ensures CleanState(Step(s, e))
  {
    if OfHandle(e) {
      HandleKeepsClean(s, e);
    } else {
      match e
      case Go(choice) => GoKeepsClean(s, choice);
      case Bind(loop, choice) => TaskKeepsClean(s, 0, loop, choice);
      case Adopt(t, loop, choice) => TaskKeepsClean(s, t, loop, choice);
      case AdoptedDone(t) => TaskKeepsClean(s, t, 0, Carrier);
      case GiveBack(l) =>
    }
  }

  /** In a run without such a callback, every handle with pending work is active, and
      so the Stage holds on to its backend. */
  lemma {:induction false} TrackedWithoutSlips(s: State, es: seq<Event>)
    requires InvClean(s) && NoSlip(s, es)
    ensures InvClean(Run(s, es))
    ensures var t := Run(s, es); forall h :: 0 <= h < |t.pending| && t.pending[h] > 0 ==> h in t.active && t.backend == Some(t.homes[h])
    decreases |es|
  {
    if es != [] {
      StepKeepsInv(s, es[0]);
      StepKeepsClean(s, es[0]);
      TrackedWithoutSlips(Step(s, es[0]), es[1..]);
    }
  }

  /** Any such callback lets the report that is under way drop the handle while its
      new work is pending. */
  lemma SlipLosesHandle(s: State, h: nat)
    requires Inv(s) && Slips(s, Late(h))
    ensures var t := Run(s, [Late(h), Quiesce(h)]);
            h < |t.pending| && t.pending[h] > 0 && h !in t.active
  {
    var t := Step(s, Late(h));
    assert h in t.quiescing;
    assert Run(s, [Late(h), Quiesce(h)]) == Run(t, [Quiesce(h)]);
    assert Run(t, [Quiesce(h)]) == Run(Step(t, Quiesce(h)), []);
  }

  /** So a step is harmless, whatever slip-free run follows, exactly when it is not
      such a callback. */
  lemma HarmlessIffNoSlip(s: State, e: Event)
    requires InvClean(s)
    ensures !Slips(s, e) <==>
            forall es :: NoSlip(Step(s, e), es) ==> Tracked(Run(Step(s, e), es).active, Run(Step(s, e), es).pending)
  {
    var t := Step(s, e);
    if Slips(s, e) {
      var es := [Quiesce(e.handle)];
      assert NoSlip(t, es);
      SlipLosesHandle(s, e.handle);
      assert [e, Quiesce(e.handle)][1..] == es;
      assert !Tracked(Run(t, es).active, Run(t, es).pending);
    } else {
      StepKeepsInv(s, e);
      StepKeepsClean(s, e);
      forall es | NoSlip(t, es)
        ensures Tracked(Run(t, es).active, Run(t, es).pending)
      {
        TrackedWithoutSlips(t, es);
      }
    }
  }

  /** From a new Stage: the backend goes while the callback's work is pending. */
  lemma LostHandle()
    ensures var s := Run(NEW, [Go(Carrier), Retain(0), Release(0), Late(0), Quiesce(0)]);
            s.pending == [1] && s.active == {} && s.backend.None? && s.lease.None? && s.parting == {0}
  {
    var s1 := Step(NEW, Go(Carrier));
    var s2 := Step(s1, Retain(0));
    var s3 := Step(s2, Release(0));
    var s4 := Step(s3, Late(0));
    assert s4.pending == [1] && s4.active == {0} && s4.backend == Some(Carrier) && s4.lease == Some(0);
    assert Run(s4, [Quiesce(0)]) == Run(Step(s4, Quiesce(0)), []);
    assert Run(s3, [Late(0), Quiesce(0)]) == Run(s4, [Quiesce(0)]);
    assert Run(s2, [Release(0), Late(0), Quiesce(0)]) == Run(s3, [Late(0), Quiesce(0)]);
    assert Run(s1, [Retain(0), Release(0), Late(0), Quiesce(0)]) == Run(s2, [Release(0), Late(0), Quiesce(0)]);
  }

  // --------------------------------------------------- what each event does

  /** From `s` to `t` the binding is as it was or, if there was none, it is `choice`,
      with a new lease exactly for the carrier. */
  ghost predicate BoundTo(s: State, t: State, choice: Backend) {
    if s.backend.Some? then t.backend == s.backend && t.lease == s.lease && t.leases == s.leases
    else
      && t.backend == Some(choice)
      && (if choice == Carrier then t.lease == Some(s.leases) && t.leases == s.leases + 1
          else t.lease == s.lease && t.leases == s.leases)
  }

  /** With work left in `t` the binding is as it was; otherwise it is gone, and the
      lease is on its way back. */
  ghost predicate KeptWhileWorking(s: State, t: State) {
    if t.active != {} || t.adopted != map[]
    then t.backend == s.backend && t.lease == s.lease && t.parting == s.parting
    else
      && t.backend.None? && t.lease.None?
      && t.parting == s.parting + (if s.lease.Some? then {s.lease.value} else {})
  }

  ghost predicate SameCounts(s: State, t: State) {
    t.homes == s.homes && t.pending == s.pending && t.unsubmitted == s.unsubmitted
  }

  /** A new handle is active on the bound backend, with no work yet. */
  lemma {:induction false} GoDoes(s: State, choice: Backend)
    ensures var t := Step(s, Go(choice));
            && BoundTo(s, t, choice) && t.backend.Some?
            && t.active == s.active + {|s.homes|} && t.homes == s.homes + [t.backend.value]
            && t.pending == s.pending + [0] && t.unsubmitted == s.unsubmitted + {|s.homes|}
            && t.adopted == s.adopted && t.quiescing == s.quiescing && t.parting == s.parting && t.returned == s.returned
  {
  }

  /** Units are counted one by one; the last one released owes a report. */
  lemma {:induction false} CountDoes(s: State, h: nat)
    requires h < |s.pending|
    ensures Step(s, Retain(h)) ==
            if s.pending[h] > 0 || h in s.unsubmitted
            then s.(pending := s.pending[h := s.pending[h] + 1], unsubmitted := s.unsubmitted - {h}) else s
    ensures Step(s, Release(h)) ==
            if s.pending[h] == 0 then s
            else s.(pending := s.pending[h := s.pending[h] - 1],
                    quiescing := if s.pending[h] == 1 then s.quiescing + multiset{h} else s.quiescing)
  {
  }

  /** A report takes the handle off the active ones and ends the epoch with the last. */
  lemma {:induction false} QuiesceDoes(s: State, h: nat)
    ensures var t := Step(s, Quiesce(h));
            if h !in s.quiescing then t == s
            else
              && t.active == s.active - {h} && t.quiescing == s.quiescing - multiset{h}
              && KeptWhileWorking(s, t) && SameCounts(s, t) && t.adopted == s.adopted && t.returned == s.returned && t.leases == s.leases
  {
  }

  /** A late callback of a submitted handle is accepted while the Stage is unbound or
      bound to the handle's home; it makes the handle active with one unit more. */
  lemma {:induction false} LateDoes(s: State, h: nat)
    requires h < |s.homes| && h < |s.pending|
    ensures var t := Step(s, Late(h));
            if h in s.unsubmitted || (s.backend.Some? && s.backend != Some(s.homes[h])) then t == s
            else
              && BoundTo(s, t, s.homes[h]) && t.active == s.active + {h} && t.pending == s.pending[h := s.pending[h] + 1]
              && t.homes == s.homes && t.unsubmitted == s.unsubmitted && t.adopted == s.adopted && t.quiescing == s.quiescing
              && t.parting == s.parting && t.returned == s.returned
  {
  }

  /** `create_task` and `adopt` succeed exactly when the Stage is bound, or would be, to
      the caller's own loop; a refusal leaves no binding that has no work. */
  lemma {:induction false} BindDoes(s: State, loop: nat, choice: Backend)
    ensures var t := Step(s, Bind(loop, choice));
            && SameCounts(s, t) && t.active == s.active && t.adopted == s.adopted && t.quiescing == s.quiescing && t.returned == s.returned
            && (if (if s.backend.Some? then s.backend.value else choice) == Caller(loop)
                then BoundTo(s, t, choice) && t.parting == s.parting
                else if s.active != {} || s.adopted != map[] then BoundTo(s, t, choice) && t.parting == s.parting
                else
                  && t.backend.None? && t.lease.None?
                  && t.parting == s.parting + (if s.backend.None? && choice == Carrier then {s.leases}
                                               else if s.lease.Some? then {s.lease.value} else {}))
  {
  }

  lemma {:induction false} AdoptDoes(s: State, task: nat, loop: nat, choice: Backend)
    ensures var t := Step(s, Adopt(task, loop, choice));
            if task in s.adopted then t == s
            else if (if s.backend.Some? then s.backend.value else choice) == Caller(loop)
            then t == Step(s, Bind(loop, choice)).(adopted := s.adopted[task := loop])
            else t == Step(s, Bind(loop, choice))
  {
  }

  /** A finished task leaves, the last one ends the epoch, and a lease comes back once. */
  lemma {:induction false} DoneDoes(s: State, task: nat, lease: nat)
    ensures var t := Step(s, AdoptedDone(task));
            if task !in s.adopted then t == s
            else
              && t.adopted == s.adopted - {task} && t.active == s.active && SameCounts(s, t) && KeptWhileWorking(s, t)
              && t.quiescing == s.quiescing && t.returned == s.returned && t.leases == s.leases
    ensures Step(s, GiveBack(lease)) ==
            if lease in s.parting then s.(parting := s.parting - {lease}, returned := s.returned + [lease]) else s
  {
  }
}
