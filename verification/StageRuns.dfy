/**
  Any calls on a Stage are a run of its models.  The models also decide what a call
  does: which events it amounts to depends on their states alone.
 */
module StageRuns {
  import opened Common
  import Epoch
  import IdleDeadline
  import opened Stages

  /** The methods of Stage, and what happens around it: a handle's count changes, a
      lease goes back to the carrier, time passes, a timer fires. */
  datatype Call =
    | Go(at: Surroundings, nested: bool)
    | Count(handle: nat, retained: bool)
    | Quiescent(handle: nat, errors: seq<nat>)
    | LateCallback(handle: nat)
    | CreateTask(loop: nat, nested: bool, at: Surroundings)
    | Adopt(task: nat, loop: nat, origin: string, nested: bool, at: Surroundings)
    | TaskDone(task: nat)
    | ReturnLease(lease: nat)
    | Elapse(d: real)
    | Touch(tick: bool)
    | Fire
    | FireStale(timer: IdleDeadline.Timer)
    | Seal

  /** A call that needs a backend gets one, and is not shut out. */
  predicate Enters(e: Epoch.State, i: IdleDeadline.State, mode: Mode, nested: bool, at: Surroundings) {
    !(i.isSealed && !nested) && !(e.backend.None? && Suggested(mode, at).Err?)
  }

  predicate CanRecall(e: Epoch.State, h: nat) {
    h < |e.homes| && h < |e.pending| && h !in e.unsubmitted
  }

  function EpochEvent(e: Epoch.State, i: IdleDeadline.State, mode: Mode, c: Call): Option<Epoch.Event> {
    match c
    case Go(at, nested) => if Enters(e, i, mode, nested, at) then Some(Epoch.Go(ChoiceOf(mode, at))) else None
    case Count(h, retained) => Some(if retained then Epoch.Retain(h) else Epoch.Release(h))
    case Quiescent(h, _) => if h in e.quiescing then Some(Epoch.Quiesce(h)) else None
    case LateCallback(h) => if CanRecall(e, h) then Some(Epoch.Late(h)) else None
    case CreateTask(loop, nested, at) => if Enters(e, i, mode, nested, at) then Some(Epoch.Bind(loop, ChoiceOf(mode, at))) else None
    case Adopt(t, loop, _, nested, at) =>
      if t !in e.adopted && Enters(e, i, mode, nested, at) then Some(Epoch.Adopt(t, loop, ChoiceOf(mode, at))) else None
    case TaskDone(t) => Some(Epoch.AdoptedDone(t))
    case ReturnLease(l) => Some(Epoch.GiveBack(l))
    case _ => None
  }

  function IdleEvent(e: Epoch.State, i: IdleDeadline.State, mode: Mode, c: Call): Option<IdleDeadline.Event> {
    match c
    case Go(at, nested) => if Enters(e, i, mode, nested, at) then Some(IdleDeadline.Start) else None
    case Quiescent(h, _) =>
      if h !in e.quiescing then None else Some(if h in e.active then IdleDeadline.Finish else IdleDeadline.Abandon)
    case LateCallback(h) =>
      if CanRecall(e, h) && Epoch.AdmitsLate(e, h) && h !in e.active then Some(IdleDeadline.LateStart) else None
    case CreateTask(loop, nested, at) =>
      if Enters(e, i, mode, nested, at) && !Epoch.BindLoop(e, loop, ChoiceOf(mode, at)).1 then Some(IdleDeadline.Abandon) else None
    case Adopt(t, loop, _, nested, at) =>
      if t in e.adopted || !Enters(e, i, mode, nested, at) then None
      else Some(if Epoch.BindLoop(e, loop, ChoiceOf(mode, at)).1 then IdleDeadline.Start else IdleDeadline.Abandon)
    case TaskDone(t) => if t in e.adopted then Some(IdleDeadline.FinishAdopted) else None
    case Elapse(d) => Some(IdleDeadline.Elapse(d))
    case Touch(tick) => if tick && (i.isSealed || i.work == 0) then None else Some(IdleDeadline.Touch)
    case Fire => Some(IdleDeadline.Fire)
    case FireStale(t) => Some(IdleDeadline.FireStale(t))
    case Seal => Some(IdleDeadline.Seal)
    case _ => None
  }

  function EpochAfter(e: Epoch.State, o: Option<Epoch.Event>): Epoch.State {
    if o.Some? then Epoch.Step(e, o.value) else e
  }

  function IdleAfter(i: IdleDeadline.State, timeout: Option<real>, o: Option<IdleDeadline.Event>): IdleDeadline.State {
    if o.Some? then IdleDeadline.Step(i, timeout, o.value) else i
  }

  /** The fields of `stage` stand for these states of the models. */
  ghost predicate At(stage: Stage, e: Epoch.State, i: IdleDeadline.State)
    reads stage
  {
    stage.Valid() && stage.epoch == e && stage.idle == i
  }

  method PerformGo(stage: Stage, e: Epoch.State, i: IdleDeadline.State, at: Surroundings, nested: bool)
    requires At(stage, e, i)
    modifies stage
    ensures At(stage, EpochAfter(e, EpochEvent(e, i, stage.mode, Go(at, nested))),
               IdleAfter(i, stage.idleTimeout, IdleEvent(e, i, stage.mode, Go(at, nested))))
    ensures stage.scopeSettlementErrors == old(stage.scopeSettlementErrors)
  {
    var r := stage.NewHandle(at, e.leases, i.now, nested);
  }

  lemma QuiescentIs(e: Epoch.State, i: IdleDeadline.State, mode: Mode, timeout: Option<real>, h: nat, errors: seq<nat>)
    ensures var c := Quiescent(h, errors);
            && EpochAfter(e, EpochEvent(e, i, mode, c)) == (if h in e.quiescing then Epoch.Step(e, Epoch.Quiesce(h)) else e)
            && IdleAfter(i, timeout, IdleEvent(e, i, mode, c)) ==
               if h !in e.quiescing then i else if h in e.active then IdleDeadline.Finished(i) else IdleDeadline.Quiet(i)
  {
  }

  method PerformQuiescent(stage: Stage, e: Epoch.State, i: IdleDeadline.State, h: nat, errors: seq<nat>)
    requires At(stage, e, i)
    modifies stage
    ensures At(stage, EpochAfter(e, EpochEvent(e, i, stage.mode, Quiescent(h, errors))),
               IdleAfter(i, stage.idleTimeout, IdleEvent(e, i, stage.mode, Quiescent(h, errors))))
    ensures stage.scopeSettlementErrors == old(stage.scopeSettlementErrors) + if h in e.quiescing then errors else []
  {
    QuiescentIs(e, i, stage.mode, stage.idleTimeout, h, errors);
    if h in e.quiescing {
      var lease := stage.HandleQuiescent(h, errors);
    }
  }

  method PerformLate(stage: Stage, e: Epoch.State, i: IdleDeadline.State, h: nat)
    requires At(stage, e, i)
    modifies stage
    ensures At(stage, EpochAfter(e, EpochEvent(e, i, stage.mode, LateCallback(h))),
               IdleAfter(i, stage.idleTimeout, IdleEvent(e, i, stage.mode, LateCallback(h))))
    ensures stage.scopeSettlementErrors == old(stage.scopeSettlementErrors)
  {
    if CanRecall(e, h) {
      var r := stage.SubmitCallbackDrain(h, e.homes[h], e.leases);
    }
  }

  lemma CreateTaskIs(e: Epoch.State, i: IdleDeadline.State, mode: Mode, timeout: Option<real>, loop: nat, nested: bool, at: Surroundings)
    ensures var c := CreateTask(loop, nested, at);
            var (t, ok) := Epoch.BindLoop(e, loop, ChoiceOf(mode, at));
            if Enters(e, i, mode, nested, at) then
              && EpochAfter(e, EpochEvent(e, i, mode, c)) == t
              && IdleAfter(i, timeout, IdleEvent(e, i, mode, c)) == if ok then i else IdleDeadline.Quiet(i)
            else EpochAfter(e, EpochEvent(e, i, mode, c)) == e && IdleAfter(i, timeout, IdleEvent(e, i, mode, c)) == i
  {
  }

  method PerformCreateTask(stage: Stage, e: Epoch.State, i: IdleDeadline.State, loop: nat, nested: bool, at: Surroundings)
    requires At(stage, e, i)
    modifies stage
    ensures At(stage, EpochAfter(e, EpochEvent(e, i, stage.mode, CreateTask(loop, nested, at))),
               IdleAfter(i, stage.idleTimeout, IdleEvent(e, i, stage.mode, CreateTask(loop, nested, at))))
    ensures stage.scopeSettlementErrors == old(stage.scopeSettlementErrors)
  {
    CreateTaskIs(e, i, stage.mode, stage.idleTimeout, loop, nested, at);
    var r, lease := stage.BindForTask(loop, nested, at, e.leases);
  }

  lemma AdoptIs(e: Epoch.State, i: IdleDeadline.State, mode: Mode, timeout: Option<real>,
                t: nat, loop: nat, origin: string, nested: bool, at: Surroundings)
    ensures var c := Adopt(t, loop, origin, nested, at);
            if t !in e.adopted && Enters(e, i, mode, nested, at) then
              && EpochAfter(e, EpochEvent(e, i, mode, c)) == Epoch.Step(e, Epoch.Adopt(t, loop, ChoiceOf(mode, at)))
              && IdleAfter(i, timeout, IdleEvent(e, i, mode, c)) ==
                 IdleDeadline.Step(i, timeout, if Epoch.BindLoop(e, loop, ChoiceOf(mode, at)).1 then IdleDeadline.Start else IdleDeadline.Abandon)
            else EpochAfter(e, EpochEvent(e, i, mode, c)) == e && IdleAfter(i, timeout, IdleEvent(e, i, mode, c)) == i
  {
  }

  method PerformAdopt(stage: Stage, e: Epoch.State, i: IdleDeadline.State, t: nat, loop: nat, origin: string, nested: bool, at: Surroundings)
    requires At(stage, e, i)
    modifies stage
    ensures At(stage, EpochAfter(e, EpochEvent(e, i, stage.mode, Adopt(t, loop, origin, nested, at))),
               IdleAfter(i, stage.idleTimeout, IdleEvent(e, i, stage.mode, Adopt(t, loop, origin, nested, at))))
    ensures stage.scopeSettlementErrors == old(stage.scopeSettlementErrors)
  {
    AdoptIs(e, i, stage.mode, stage.idleTimeout, t, loop, origin, nested, at);
    var r, lease := stage.Adopt(t, loop, origin, nested, at, e.leases, i.now);
  }

  method PerformTaskDone(stage: Stage, e: Epoch.State, i: IdleDeadline.State, t: nat)
    requires At(stage, e, i)
    modifies stage
    ensures At(stage, EpochAfter(e, EpochEvent(e, i, stage.mode, TaskDone(t))),
               IdleAfter(i, stage.idleTimeout, IdleEvent(e, i, stage.mode, TaskDone(t))))
    ensures stage.scopeSettlementErrors == old(stage.scopeSettlementErrors)
  {
    var lease := stage.AdoptedTaskDone(t, i.now);
  }

  method PerformTouch(stage: Stage, e: Epoch.State, i: IdleDeadline.State, tick: bool)
    requires At(stage, e, i)
    modifies stage
    ensures At(stage, EpochAfter(e, EpochEvent(e, i, stage.mode, Touch(tick))),
               IdleAfter(i, stage.idleTimeout, IdleEvent(e, i, stage.mode, Touch(tick))))
    ensures stage.scopeSettlementErrors == old(stage.scopeSettlementErrors)
  {
    stage.Touch(i.now, tick);
  }

  method PerformFire(stage: Stage, e: Epoch.State, i: IdleDeadline.State)
    requires At(stage, e, i) && IdleDeadline.Inv(i, stage.idleTimeout)
    modifies stage
    ensures At(stage, EpochAfter(e, EpochEvent(e, i, stage.mode, Fire)),
               IdleAfter(i, stage.idleTimeout, IdleEvent(e, i, stage.mode, Fire)))
    ensures stage.scopeSettlementErrors == old(stage.scopeSettlementErrors)
  {
    if i.timer.Some? && i.now >= i.timer.value.due {
      var handles, tasks := stage.IdleDeadlineReached(i.timer.value, i.now);
    }
  }

  method PerformFireStale(stage: Stage, e: Epoch.State, i: IdleDeadline.State, t: IdleDeadline.Timer)
    requires At(stage, e, i) && IdleDeadline.Inv(i, stage.idleTimeout)
    modifies stage
    ensures At(stage, EpochAfter(e, EpochEvent(e, i, stage.mode, FireStale(t))),
               IdleAfter(i, stage.idleTimeout, IdleEvent(e, i, stage.mode, FireStale(t))))
    ensures stage.scopeSettlementErrors == old(stage.scopeSettlementErrors)
  {
    if t in i.stale && i.now >= t.due {
      IdleDeadline.FiringIs(i, stage.idleTimeout, t);
      var handles, tasks := stage.IdleDeadlineReached(t, i.now);
    }
  }

  method Perform(stage: Stage, e: Epoch.State, i: IdleDeadline.State, c: Call)
    requires At(stage, e, i) && IdleDeadline.Inv(i, stage.idleTimeout)
    modifies stage
    ensures At(stage, EpochAfter(e, EpochEvent(e, i, stage.mode, c)), IdleAfter(i, stage.idleTimeout, IdleEvent(e, i, stage.mode, c)))
    ensures stage.scopeSettlementErrors == old(stage.scopeSettlementErrors) + Reported(e, c)
  {
    match c {
      case Go(at, nested) => PerformGo(stage, e, i, at, nested);
      case Count(h, retained) => stage.Counted(h, retained);
      case Quiescent(h, errors) => PerformQuiescent(stage, e, i, h, errors);
      case LateCallback(h) => PerformLate(stage, e, i, h);
      case CreateTask(loop, nested, at) => PerformCreateTask(stage, e, i, loop, nested, at);
      case Adopt(t, loop, origin, nested, at) => PerformAdopt(stage, e, i, t, loop, origin, nested, at);
      case TaskDone(t) => PerformTaskDone(stage, e, i, t);
      case ReturnLease(l) => stage.LeaseReturned(l);
      case Elapse(d) => stage.Elapse(d);
      case Touch(tick) => PerformTouch(stage, e, i, tick);
      case Fire => PerformFire(stage, e, i);
      case FireStale(t) => PerformFireStale(stage, e, i, t);
      case Seal => stage.Seal();
    }
  }

  function Reported(e: Epoch.State, c: Call): seq<nat> {
    if c.Quiescent? && c.handle in e.quiescing then c.errors else []
  }

  // -------------------------------------------------------------- whole runs

  /** The models under a sequence of calls. */
  datatype Models = Models(epoch: Epoch.State, idle: IdleDeadline.State, inventory: seq<nat>)

  function After(m: Models, mode: Mode, timeout: Option<real>, c: Call): Models {
    Models(EpochAfter(m.epoch, EpochEvent(m.epoch, m.idle, mode, c)),
           IdleAfter(m.idle, timeout, IdleEvent(m.epoch, m.idle, mode, c)),
           m.inventory + Reported(m.epoch, c))
  }

  function AfterAll(m: Models, mode: Mode, timeout: Option<real>, calls: seq<Call>): Models
    decreases |calls|
  {
    if calls == [] then m else After(AfterAll(m, mode, timeout, calls[..|calls| - 1]), mode, timeout, calls[|calls| - 1])
  }

  function NewModels(now: real): Models {
    Models(Epoch.NEW, IdleDeadline.New(now), [])
  }

  /** Whatever the calls, the two models have made runs of their own. */
  lemma {:induction false} CallsAreRuns(mode: Mode, timeout: Option<real>, now: real, calls: seq<Call>)
    returns (es: seq<Epoch.Event>, fs: seq<IdleDeadline.Event>)
    ensures var m := AfterAll(NewModels(now), mode, timeout, calls);
            m.epoch == Epoch.Run(Epoch.NEW, es) && m.idle == IdleDeadline.Run(IdleDeadline.New(now), timeout, fs)
    decreases |calls|
  {
    if calls == [] {
      es, fs := [], [];
    } else {
      var m := AfterAll(NewModels(now), mode, timeout, calls[..|calls| - 1]);
      es, fs := CallsAreRuns(mode, timeout, now, calls[..|calls| - 1]);
      var e, f := EpochEvent(m.epoch, m.idle, mode, calls[|calls| - 1]), IdleEvent(m.epoch, m.idle, mode, calls[|calls| - 1]);
      if e.Some? {
        Epoch.RunSnoc(Epoch.NEW, es, e.value);
        es := es + [e.value];
      }
      if f.Some? {
        IdleDeadline.RunSnoc(IdleDeadline.New(now), timeout, fs, f.value);
        fs := fs + [f.value];
      }
    }
  }

  /** What is proved of every run of the models, after any calls. */
  lemma {:induction false} PromisesHold(mode: Mode, timeout: Option<real>, now: real, calls: seq<Call>)
    requires timeout.Some? ==> timeout.value > 0.0
    ensures var m := AfterAll(NewModels(now), mode, timeout, calls);
            Epoch.Inv(m.epoch) && IdleDeadline.Inv(m.idle, timeout)
  {
    var es, fs := CallsAreRuns(mode, timeout, now, calls);
    Epoch.RunKeepsInv(Epoch.NEW, es);
    IdleDeadline.RunKeepsInv(IdleDeadline.New(now), timeout, fs);
  }

  /** Any calls on a new Stage leave it where the models say. */
  method Execute(mode: Mode, timeout: Option<real>, now: real, calls: seq<Call>) returns (stage: Stage)
    requires timeout.Some? ==> timeout.value > 0.0
    ensures fresh(stage) && stage.Valid()
    ensures Models(stage.epoch, stage.idle, stage.scopeSettlementErrors) == AfterAll(NewModels(now), mode, timeout, calls)
  {
    stage := new Stage(mode, timeout, now);
    var m := NewModels(now);
    for k := 0 to |calls|
      invariant fresh(stage) && stage.mode == mode && stage.idleTimeout == timeout
      invariant At(stage, m.epoch, m.idle) && stage.scopeSettlementErrors == m.inventory
      invariant m == AfterAll(NewModels(now), mode, timeout, calls[..k])
    {
      PromisesHold(mode, timeout, now, calls[..k]);
      assert calls[..k + 1][..k] == calls[..k] && calls[..k + 1][k] == calls[k];
      Perform(stage, m.epoch, m.idle, calls[k]);
      m := After(m, mode, timeout, calls[k]);
    }
    assert calls[..|calls|] == calls;
  }
}
