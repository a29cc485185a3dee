/**
  `Stage` with the fields that bind its backend, hold its work and run its idle
  timer.  `epoch` and `idle` are the models of the run so far, and the predicates tie
  the fields to them; `StageRuns` proves that any calls make a run of the models.
  Root admission is in `RootAdmissions`.
 */
module Stages {
  import opened Common
  import Epoch
  import IdleDeadline

  datatype Kind = CallerKind | StageKind

  datatype Failure = Closed | TwoOrigins | ForeignLoop | CrossesEpoch | LoopUnavailable

  datatype Mode = Auto | CallerMode(loop: nat) | StageMode

  /** Where a call comes from: inside `with` or not, on a running loop, on behalf of
      a caller-owned outer Stage, and whether the configured loop can be used. */
  datatype Surroundings = Surroundings(sync: bool, running: Option<nat>, inherited: Option<nat>, usable: bool)

  /** The backend for a Stage that has none bound. */
  function Suggested(mode: Mode, at: Surroundings): Result<Epoch.Backend, Failure> {
    match mode
    case CallerMode(loop) => if at.usable then Ok(Epoch.Caller(loop)) else Err(LoopUnavailable)
    case StageMode => Ok(Epoch.Carrier)
    case Auto =>
      if !at.sync && at.running.Some? then Ok(Epoch.Caller(at.running.value))
      else if at.inherited.Some? then Ok(Epoch.Caller(at.inherited.value))
      else Ok(Epoch.Carrier)
  }

  /** What the documentation promises of the choice: a configured loop or the carrier
      if the Stage was made for it; else the running loop, unless in a synchronous
      scope, then the loop of a waiting caller, then the carrier. */
  ghost predicate Selects(mode: Mode, at: Surroundings, r: Result<Epoch.Backend, Failure>) {
    match mode
    case CallerMode(loop) => if at.usable then r == Ok(Epoch.Caller(loop)) else r == Err(LoopUnavailable)
    case StageMode => r == Ok(Epoch.Carrier)
    case Auto =>
      && (!at.sync && at.running.Some? ==> r == Ok(Epoch.Caller(at.running.value)))
      && ((at.sync || at.running.None?) && at.inherited.Some? ==> r == Ok(Epoch.Caller(at.inherited.value)))
      && ((at.sync || at.running.None?) && at.inherited.None? ==> r == Ok(Epoch.Carrier))
  }

  /** The suggestion; irrelevant once a backend is bound. */
  function ChoiceOf(mode: Mode, at: Surroundings): Epoch.Backend {
    if Suggested(mode, at).Ok? then Suggested(mode, at).value else Epoch.Carrier
  }

  function BackendOf(kind: Option<Kind>, loop: Option<nat>): Option<Epoch.Backend> {
    if kind.None? then None
    else if kind.value.StageKind? then Some(Epoch.Carrier)
    else if loop.Some? then Some(Epoch.Caller(loop.value))
    else None
  }

  class Stage {
    const mode: Mode
    const idleTimeout: Option<real>
    var activeBackend: Option<Kind>
    var activeLoop: Option<nat>
    var generationLease: Option<nat>
    var activeHandles: set<nat>
    var adoptedTasks: map<nat, string>
    var handlesMade: nat
    var isSealed: bool
    var cancelling: bool
    var lastActivity: real
    var idleTimer: Option<IdleDeadline.Timer>
    var idleTimerToken: nat
    var idleTimeoutError: bool
    var scopeSettlementErrors: seq<nat>
    ghost var epoch: Epoch.State
    ghost var idle: IdleDeadline.State

    ghost predicate EpochValid()
      reads this`activeBackend, this`activeLoop, this`generationLease, this`activeHandles, this`adoptedTasks, this`handlesMade, this`epoch
    {
      && epoch.backend == BackendOf(activeBackend, activeLoop)
      && (activeLoop.Some? <==> activeBackend == Some(CallerKind))
      && epoch.lease == generationLease
      && epoch.active == activeHandles
      && epoch.adopted.Keys == adoptedTasks.Keys
      && |epoch.homes| == handlesMade
      && (forall h <- activeHandles :: h < handlesMade)
    }

    ghost predicate TimerValid()
      reads this`activeHandles, this`adoptedTasks, this`lastActivity, this`isSealed, this`idleTimer, this`idleTimerToken, this`idleTimeoutError, this`idle
    {
      && (idleTimeout.Some? ==> idleTimeout.value > 0.0)
      && idle.lastActivity == lastActivity
      && idle.isSealed == isSealed
      && idle.token == idleTimerToken
      && idle.timer == idleTimer
      && idle.work == |activeHandles| + |adoptedTasks|
      && idleTimeoutError == idle.expiry.Some?
    }

    ghost predicate Valid()
      reads this
    {
      EpochValid() && TimerValid()
    }

    constructor (mode: Mode, idleTimeout: Option<real>, now: real)
      requires idleTimeout.Some? ==> idleTimeout.value > 0.0
      ensures Valid() && epoch == Epoch.NEW && idle == IdleDeadline.New(now) && scopeSettlementErrors == []
      ensures this.mode == mode && this.idleTimeout == idleTimeout && !cancelling
    {
      scopeSettlementErrors := [];
      this.mode, this.idleTimeout := mode, idleTimeout;
      activeBackend, activeLoop, generationLease := None, None, None;
      activeHandles, adoptedTasks, handlesMade := {}, map[], 0;
      isSealed, cancelling, lastActivity := false, false, now;
      idleTimer, idleTimerToken, idleTimeoutError := None, 0, false;
      epoch, idle := Epoch.NEW, IdleDeadline.New(now);
    }

    predicate HasActiveWork()
      reads this
      ensures HasActiveWork() <==> |activeHandles| + |adoptedTasks| > 0
    {
      activeHandles != {} || adoptedTasks != map[]
    }

    lemma WorkAgrees()
      requires EpochValid()
      ensures HasActiveWork() <==> Epoch.HasWork(epoch)
    {
      assert adoptedTasks == map[] <==> adoptedTasks.Keys == {};
      assert epoch.adopted == map[] <==> epoch.adopted.Keys == {};
    }

    // -------------------------------------------------------------- pieces

    /** `offered` is the lease the carrier would hand out. */
    method ResolveBackend(at: Surroundings, offered: nat) returns (r: Result<Epoch.Backend, Failure>)
      requires EpochValid() && offered == epoch.leases
      modifies this`activeBackend, this`activeLoop, this`generationLease, this`epoch
      ensures EpochValid()
      ensures r.Err? <==> old(activeBackend).None? && Suggested(mode, at).Err?
      ensures r.Err? ==> epoch == old(epoch) && r.error == LoopUnavailable
      ensures r.Ok? ==> epoch.backend == Some(r.value)
      ensures r.Ok? ==> epoch == Epoch.Resolve(old(epoch), ChoiceOf(mode, at))
      ensures old(activeBackend).Some? ==> r.Ok? && activeBackend == old(activeBackend) && activeLoop == old(activeLoop)
      ensures old(activeBackend).None? ==> Selects(mode, at, r)
      ensures generationLease == if old(activeBackend).None? && r == Ok(Epoch.Carrier) then Some(offered) else old(generationLease)
    {
      if activeBackend.Some? {
        return Ok(BackendOf(activeBackend, activeLoop).value);
      }
      var suggested := Suggested(mode, at);
      if suggested.Err? {
        return suggested;
      }
      epoch := Epoch.Resolve(epoch, suggested.value);
      if suggested.value.Carrier? {
        generationLease := Some(offered);
        activeBackend, activeLoop := Some(StageKind), None;
      } else {
        activeBackend, activeLoop := Some(CallerKind), Some(suggested.value.loop);
      }
      r := suggested;
    }

    method TouchLocked(now: real)
      requires TimerValid() && now == idle.now
      modifies this`lastActivity, this`idleTimer, this`idleTimerToken, this`idle
      ensures TimerValid() && idle == IdleDeadline.Touched(old(idle), idleTimeout)
      ensures lastActivity == now
      ensures idleTimer == if idleTimeout.Some? && HasActiveWork() && !isSealed && old(idleTimer).None?
                           then Some(IdleDeadline.Timer(now + idleTimeout.value, idleTimerToken)) else old(idleTimer)
    {
      idle := IdleDeadline.Touched(idle, idleTimeout);
      lastActivity := now;
      if idleTimeout.None? || !HasActiveWork() || isSealed {
        return;
      }
      if idleTimer.Some? {
        return;
      }
      idleTimerToken := idleTimerToken + 1;
      idleTimer := Some(IdleDeadline.Timer(now + idleTimeout.value, idleTimerToken));
    }

    method ReleaseBackendIfQuiescent() returns (lease: Option<nat>)
      requires EpochValid() && TimerValid()
      modifies this`idleTimer, this`idleTimerToken, this`generationLease, this`activeBackend, this`activeLoop,
               this`cancelling, this`epoch, this`idle
      ensures EpochValid() && TimerValid()
      ensures epoch == Epoch.ReleaseIfIdle(old(epoch)) && idle == IdleDeadline.Quiet(old(idle))
      ensures lease == if Epoch.HasWork(epoch) then None else old(epoch.lease)
      ensures cancelling == (old(HasActiveWork()) && old(cancelling))
    {
      WorkAgrees();
      if HasActiveWork() {
        return None;
      }
      StopTimer();
      lease := Unbind();
      cancelling := false;
    }

    method StopTimer()
      requires TimerValid() && idle.work == 0
      modifies this`idleTimer, this`idleTimerToken, this`idle
      ensures TimerValid() && idle == IdleDeadline.Quiet(old(idle))
    {
      idle := IdleDeadline.Quiet(idle);
      idleTimer := None;
      idleTimerToken := idleTimerToken + 1;
    }

    method Unbind() returns (lease: Option<nat>)
      requires EpochValid() && !Epoch.HasWork(epoch)
      modifies this`generationLease, this`activeBackend, this`activeLoop, this`epoch
      ensures EpochValid() && epoch == Epoch.ReleaseIfIdle(old(epoch))
      ensures lease == old(generationLease)
    {
      epoch := Epoch.ReleaseIfIdle(epoch);
      lease := generationLease;
      generationLease := None;
      activeBackend, activeLoop := None, None;
    }

    method Enlist() returns (h: nat)
      requires EpochValid() && TimerValid() && epoch.backend.Some?
      modifies this`activeHandles, this`handlesMade, this`epoch, this`idle
      ensures EpochValid() && epoch == Epoch.AddHandle(old(epoch))
      ensures TimerValid() && idle == IdleDeadline.Entered(old(idle))
      ensures h == old(handlesMade)
    {
      h := handlesMade;
      assert h !in activeHandles;
      activeHandles := activeHandles + {h};
      handlesMade := handlesMade + 1;
      epoch := Epoch.AddHandle(epoch);
      idle := IdleDeadline.Entered(idle);
    }

    method Discard(h: nat)
      requires EpochValid() && TimerValid()
      modifies this`activeHandles, this`epoch, this`idle
      ensures EpochValid() && epoch == Epoch.Discard(old(epoch), h)
      ensures TimerValid()
      ensures h in old(activeHandles) ==> old(idle).work > 0 && idle == IdleDeadline.Left(old(idle))
      ensures h !in old(activeHandles) ==> idle == old(idle)
    {
      ghost var was := activeHandles;
      activeHandles := activeHandles - {h};
      epoch := Epoch.Discard(epoch, h);
      if h in was {
        assert was == activeHandles + {h};
        idle := IdleDeadline.Left(idle);
      } else {
        assert was == activeHandles;
      }
    }

    // ---------------------------------------------------------- operations

    /** `_new_handle_locked`; the handle's number is the answer. */
    method NewHandle(at: Surroundings, offered: nat, now: real, allowSealed: bool) returns (r: Result<nat, Failure>)
      requires Valid() && offered == epoch.leases && now == idle.now
      modifies this`activeBackend, this`activeLoop, this`generationLease, this`activeHandles, this`handlesMade, this`lastActivity,
               this`idleTimer, this`idleTimerToken, this`epoch, this`idle
      ensures Valid()
      ensures r == Err(Closed) <==> old(isSealed) && !allowSealed
      ensures r == Err(LoopUnavailable) <==> !(old(isSealed) && !allowSealed) && old(activeBackend).None? && Suggested(mode, at).Err?
      ensures r.Err? ==> (r.error == Closed || r.error == LoopUnavailable) && epoch == old(epoch) && idle == old(idle)
      ensures r.Ok? ==> r.value == |old(epoch.homes)| && r.value in activeHandles
      ensures r.Ok? ==> epoch == Epoch.Step(old(epoch), Epoch.Go(ChoiceOf(mode, at)))
      ensures r.Ok? ==> idle == IdleDeadline.Step(old(idle), idleTimeout, IdleDeadline.Start)
    {
      if isSealed && !allowSealed {
        return Err(Closed);
      }
      var bound := ResolveBackend(at, offered);
      if bound.Err? {
        return Err(bound.error);
      }
      var h := BeginHandle(now);
      r := Ok(h);
    }

    method BeginHandle(now: real) returns (h: nat)
      requires EpochValid() && TimerValid() && epoch.backend.Some? && now == idle.now
      modifies this`activeHandles, this`handlesMade, this`lastActivity, this`idleTimer, this`idleTimerToken, this`epoch, this`idle
      ensures EpochValid() && epoch == Epoch.AddHandle(old(epoch))
      ensures TimerValid() && idle == IdleDeadline.Touched(IdleDeadline.Entered(old(idle)), idleTimeout)
      ensures h == old(handlesMade)
    {
      h := Enlist();
      TouchLocked(now);
    }

    /** `_handle_quiescent` of a handle whose count reached zero, with the errors that
        were taken off it. */
    method HandleQuiescent(h: nat, errors: seq<nat>) returns (lease: Option<nat>)
      requires Valid() && h in epoch.quiescing
      modifies this`scopeSettlementErrors, this`activeHandles, this`idleTimer, this`idleTimerToken, this`generationLease,
               this`activeBackend, this`activeLoop, this`cancelling, this`epoch, this`idle
      ensures Valid()
      ensures scopeSettlementErrors == old(scopeSettlementErrors) + errors
      ensures cancelling ==> Epoch.HasWork(epoch)
      ensures epoch == Epoch.Step(old(epoch), Epoch.Quiesce(h))
      ensures idle == if h in old(activeHandles) then IdleDeadline.Finished(old(idle)) else IdleDeadline.Quiet(old(idle))
      ensures lease == if Epoch.HasWork(epoch) then None else old(epoch.lease)
    {
      scopeSettlementErrors := scopeSettlementErrors + errors;
      lease := Leave(h);
    }

    method Leave(h: nat) returns (lease: Option<nat>)
      requires EpochValid() && TimerValid() && h in epoch.quiescing
      modifies this`activeHandles, this`idleTimer, this`idleTimerToken, this`generationLease, this`activeBackend, this`activeLoop,
               this`cancelling, this`epoch, this`idle
      ensures EpochValid() && TimerValid()
      ensures epoch == Epoch.Step(old(epoch), Epoch.Quiesce(h))
      ensures idle == if h in old(activeHandles) then IdleDeadline.Finished(old(idle)) else IdleDeadline.Quiet(old(idle))
      ensures lease == if Epoch.HasWork(epoch) then None else old(epoch.lease)
      ensures cancelling ==> Epoch.HasWork(epoch)
    {
      Discard(h);
      lease := ReleaseBackendIfQuiescent();
    }

    /** Bind, and insist on the task's own loop. */
    method BindLoop(loop: nat, at: Surroundings, offered: nat) returns (r: Result<(), Failure>, lease: Option<nat>)
      requires EpochValid() && TimerValid() && offered == epoch.leases
      modifies this`idleTimer, this`idleTimerToken, this`generationLease, this`activeBackend, this`activeLoop,
               this`cancelling, this`epoch, this`idle
      ensures EpochValid() && TimerValid()
      ensures r == Err(LoopUnavailable) <==> old(activeBackend).None? && Suggested(mode, at).Err?
      ensures r == Err(LoopUnavailable) ==> epoch == old(epoch) && idle == old(idle)
      ensures r != Err(LoopUnavailable) ==> (epoch, r.Ok?) == Epoch.BindLoop(old(epoch), loop, ChoiceOf(mode, at))
      ensures r.Ok? ==> idle == old(idle) && lease.None?
      ensures r.Err? ==> r.error == LoopUnavailable || (r.error == ForeignLoop && idle == IdleDeadline.Quiet(old(idle)))
      ensures lease == if r != Err(ForeignLoop) || Epoch.HasWork(epoch) then None else Epoch.Resolve(old(epoch), ChoiceOf(mode, at)).lease
    {
      lease := None;
      var bound := ResolveBackend(at, offered);
      if bound.Err? {
        return Err(bound.error), None;
      }
      r, lease := Insist(loop);
    }

    method Insist(loop: nat) returns (r: Result<(), Failure>, lease: Option<nat>)
      requires EpochValid() && TimerValid() && epoch.backend.Some?
      modifies this`idleTimer, this`idleTimerToken, this`generationLease, this`activeBackend, this`activeLoop,
               this`cancelling, this`epoch, this`idle
      ensures EpochValid() && TimerValid()
      ensures r == if old(epoch).backend == Some(Epoch.Caller(loop)) then Ok(()) else Err(ForeignLoop)
      ensures r.Ok? ==> epoch == old(epoch) && idle == old(idle) && lease.None?
      ensures r.Err? ==> epoch == Epoch.ReleaseIfIdle(old(epoch)) && idle == IdleDeadline.Quiet(old(idle))
      ensures r.Err? ==> lease == if Epoch.HasWork(epoch) then None else old(epoch).lease
    {
      if activeBackend == Some(CallerKind) && activeLoop == Some(loop) {
        return Ok(()), None;
      }
      lease := ReleaseBackendIfQuiescent();
      r := Err(ForeignLoop);
    }

    /** The first critical section of `create_task`. */
    method BindForTask(loop: nat, nested: bool, at: Surroundings, offered: nat) returns (r: Result<(), Failure>, lease: Option<nat>)
      requires Valid() && offered == epoch.leases
      modifies this`idleTimer, this`idleTimerToken, this`generationLease, this`activeBackend, this`activeLoop,
               this`cancelling, this`epoch, this`idle
      ensures Valid()
      ensures r == Err(Closed) <==> old(isSealed) && !nested
      ensures r == Err(LoopUnavailable) <==> !(old(isSealed) && !nested) && old(activeBackend).None? && Suggested(mode, at).Err?
      ensures r.Err? && r.error != ForeignLoop ==> (r.error == Closed || r.error == LoopUnavailable) && epoch == old(epoch) && idle == old(idle)
      ensures r.Ok? || r.error == ForeignLoop ==> (epoch, r.Ok?) == Epoch.BindLoop(old(epoch), loop, ChoiceOf(mode, at))
      ensures r.Ok? ==> idle == old(idle)
      ensures r == Err(ForeignLoop) ==> idle == IdleDeadline.Quiet(old(idle))
      ensures lease == if r != Err(ForeignLoop) || Epoch.HasWork(epoch) then None else Epoch.Resolve(old(epoch), ChoiceOf(mode, at)).lease
    {
      if isSealed && !nested {
        return Err(Closed), None;
      }
      r, lease := BindLoop(loop, at, offered);
    }

    /** `adopt` up to the installation of the done callback.  The answer says whether
        the task must be cancelled, and names the lease that a refusal gives back. */
    method Adopt(task: nat, loop: nat, origin: string, nested: bool, at: Surroundings, offered: nat, now: real)
      returns (r: Result<bool, Failure>, lease: Option<nat>)
      requires Valid() && offered == epoch.leases && now == idle.now
      modifies this`activeBackend, this`activeLoop, this`generationLease, this`adoptedTasks, this`cancelling, this`lastActivity,
               this`idleTimer, this`idleTimerToken, this`epoch, this`idle
      ensures Valid()
      ensures r == Err(Closed) <==> old(isSealed) && !nested
      ensures r == Err(TwoOrigins) <==> !(old(isSealed) && !nested) && task in old(adoptedTasks) && old(adoptedTasks)[task] != origin
      ensures r == Err(LoopUnavailable) <==>
              !(old(isSealed) && !nested) && task !in old(adoptedTasks) && old(activeBackend).None? && Suggested(mode, at).Err?
      ensures r == Err(Closed) || r == Err(LoopUnavailable) || task in old(adoptedTasks) ==> epoch == old(epoch) && idle == old(idle)
      ensures (r.Ok? || r == Err(ForeignLoop)) ==> epoch == Epoch.Step(old(epoch), Epoch.Adopt(task, loop, ChoiceOf(mode, at)))
      ensures r.Ok? && task !in old(adoptedTasks) ==>
                && adoptedTasks == old(adoptedTasks)[task := origin] && r.value == cancelling
                && idle == IdleDeadline.Step(old(idle), idleTimeout, IdleDeadline.Start)
      ensures r == Err(ForeignLoop) ==> task !in old(adoptedTasks) && idle == IdleDeadline.Step(old(idle), idleTimeout, IdleDeadline.Abandon)
      ensures r.Err? ==> r.error == Closed || r.error == TwoOrigins || r.error == LoopUnavailable || r.error == ForeignLoop
      ensures task !in old(adoptedTasks) && (r.Ok? || r == Err(ForeignLoop)) ==>
                r.Ok? == Epoch.BindLoop(old(epoch), loop, ChoiceOf(mode, at)).1
      ensures lease == if r != Err(ForeignLoop) || Epoch.HasWork(epoch) then None else Epoch.Resolve(old(epoch), ChoiceOf(mode, at)).lease
    {
      if isSealed && !nested {
        return Err(Closed), None;
      }
      if task in adoptedTasks {
        return if adoptedTasks[task] != origin then Err(TwoOrigins) else Ok(false), None;
      }
      r, lease := AdoptNew(task, loop, origin, at, offered, now);
    }

    method AdoptNew(task: nat, loop: nat, origin: string, at: Surroundings, offered: nat, now: real)
      returns (r: Result<bool, Failure>, lease: Option<nat>)
      requires EpochValid() && TimerValid() && offered == epoch.leases && now == idle.now && task !in adoptedTasks
      modifies this`activeBackend, this`activeLoop, this`generationLease, this`adoptedTasks, this`cancelling, this`lastActivity,
               this`idleTimer, this`idleTimerToken, this`epoch, this`idle
      ensures EpochValid() && TimerValid()
      ensures r == Err(LoopUnavailable) <==> old(activeBackend).None? && Suggested(mode, at).Err?
      ensures r.Err? ==> r.error == LoopUnavailable || r.error == ForeignLoop
      ensures r == Err(LoopUnavailable) ==> epoch == old(epoch) && idle == old(idle)
      ensures r != Err(LoopUnavailable) ==> epoch == Epoch.AdoptTask(old(epoch), task, loop, ChoiceOf(mode, at))
      ensures r.Ok? ==>
                && adoptedTasks == old(adoptedTasks)[task := origin] && r.value == cancelling
                && idle == IdleDeadline.Touched(IdleDeadline.Entered(old(idle)), idleTimeout)
      ensures r == Err(ForeignLoop) ==> idle == IdleDeadline.Quiet(old(idle))
      ensures r != Err(LoopUnavailable) ==> r.Ok? == Epoch.BindLoop(old(epoch), loop, ChoiceOf(mode, at)).1
      ensures lease == if r != Err(ForeignLoop) || Epoch.HasWork(epoch) then None else Epoch.Resolve(old(epoch), ChoiceOf(mode, at)).lease
    {
      var bound: Result<(), Failure>;
      bound, lease := BindLoop(loop, at, offered);
      if bound.Err? {
        return Err(bound.error), lease;
      }
      Install(task, loop, origin, now);
      r := Ok(cancelling);
    }

    method Install(task: nat, loop: nat, origin: string, now: real)
      requires EpochValid() && TimerValid() && task !in adoptedTasks && now == idle.now
      modifies this`adoptedTasks, this`lastActivity, this`idleTimer, this`idleTimerToken, this`epoch, this`idle
      ensures EpochValid() && epoch == old(epoch).(adopted := old(epoch).adopted[task := loop])
      ensures TimerValid() && idle == IdleDeadline.Touched(IdleDeadline.Entered(old(idle)), idleTimeout)
      ensures adoptedTasks == old(adoptedTasks)[task := origin]
    {
      Own(task, loop, origin);
      TouchLocked(now);
    }

    method Retire(task: nat, now: real)
      requires EpochValid() && TimerValid() && task in adoptedTasks && now == idle.now
      modifies this`adoptedTasks, this`lastActivity, this`idleTimer, this`idleTimerToken, this`epoch, this`idle
      ensures EpochValid() && epoch == Epoch.Disown(old(epoch), task)
      ensures TimerValid() && old(idle).work > 0 && idle == IdleDeadline.Touched(IdleDeadline.Left(old(idle)), idleTimeout)
    {
      Disown(task);
      TouchLocked(now);
    }

    method Own(task: nat, loop: nat, origin: string)
      requires EpochValid() && TimerValid() && task !in adoptedTasks
      modifies this`adoptedTasks, this`epoch, this`idle
      ensures EpochValid() && epoch == old(epoch).(adopted := old(epoch).adopted[task := loop])
      ensures TimerValid() && idle == IdleDeadline.Entered(old(idle))
      ensures adoptedTasks == old(adoptedTasks)[task := origin]
    {
      SizeWith(adoptedTasks, task, origin);
      adoptedTasks := adoptedTasks[task := origin];
      epoch := epoch.(adopted := epoch.adopted[task := loop]);
      idle := IdleDeadline.Entered(idle);
    }

    method Disown(task: nat)
      requires EpochValid() && TimerValid() && task in adoptedTasks
      modifies this`adoptedTasks, this`epoch, this`idle
      ensures EpochValid() && epoch == Epoch.Disown(old(epoch), task)
      ensures TimerValid() && old(idle).work > 0 && idle == IdleDeadline.Left(old(idle))
      ensures adoptedTasks == old(adoptedTasks) - {task}
    {
      SizeWithout(adoptedTasks, task);
      adoptedTasks := adoptedTasks - {task};
      epoch := Epoch.Disown(epoch, task);
      idle := IdleDeadline.Left(idle);
    }

    /** `_adopted_task_done`, without the observer. */
    method AdoptedTaskDone(task: nat, now: real) returns (lease: Option<nat>)
      requires Valid() && now == idle.now
      modifies this`adoptedTasks, this`lastActivity, this`idleTimer, this`idleTimerToken, this`generationLease, this`activeBackend,
               this`activeLoop, this`cancelling, this`epoch, this`idle
      ensures Valid()
      ensures epoch == Epoch.Step(old(epoch), Epoch.AdoptedDone(task))
      ensures idle == if task in old(adoptedTasks) then IdleDeadline.Step(old(idle), idleTimeout, IdleDeadline.FinishAdopted) else old(idle)
      ensures lease == if task !in old(adoptedTasks) || Epoch.HasWork(epoch) then None else old(epoch.lease)
    {
      if task !in adoptedTasks {
        return None;
      }
      Retire(task, now);
      lease := ReleaseBackendIfQuiescent();
    }

    /** The holder of a lease that was answered gives it back to the carrier. */
    ghost method LeaseReturned(lease: nat)
      requires Valid()
      modifies this`epoch
      ensures Valid() && epoch == Epoch.Step(old(epoch), Epoch.GiveBack(lease))
    {
      epoch := Epoch.Step(epoch, Epoch.GiveBack(lease));
    }

    /** A handle of this Stage has retained, or released, one unit of work. */
    ghost method Counted(h: nat, retained: bool)
      requires Valid()
      modifies this`epoch
      ensures Valid() && epoch == Epoch.Step(old(epoch), if retained then Epoch.Retain(h) else Epoch.Release(h))
    {
      epoch := Epoch.Step(epoch, if retained then Epoch.Retain(h) else Epoch.Release(h));
    }

    // --------------------------------------------------------------- timer

    /** Time passes; a timer that is due holds it up until it fires. */
    ghost method Elapse(d: real)
      requires Valid()
      modifies this`idle
      ensures Valid() && idle == IdleDeadline.Step(old(idle), idleTimeout, IdleDeadline.Elapse(d))
    {
      idle := IdleDeadline.Step(idle, idleTimeout, IdleDeadline.Elapse(d));
    }

    /** `_owned_activity`, and `tick` of an open Stage that has work. */
    method Touch(now: real, tick: bool)
      requires Valid() && now == idle.now
      modifies this`lastActivity, this`idleTimer, this`idleTimerToken, this`idle
      ensures Valid()
      ensures idle == if tick && (isSealed || !HasActiveWork()) then old(idle)
                      else IdleDeadline.Step(old(idle), idleTimeout, IdleDeadline.Touch)
    {
      if tick && (isSealed || !HasActiveWork()) {
        return;
      }
      TouchLocked(now);
    }

    /** `_idle_deadline_reached`, called by the current timer when it is due or by a
        cancelled one.  The answer is the work to cancel. */
    method IdleDeadlineReached(timer: IdleDeadline.Timer, now: real) returns (handles: set<nat>, tasks: set<nat>)
      requires Valid() && IdleDeadline.Inv(idle, idleTimeout) && now == idle.now >= timer.due
      requires idleTimer == Some(timer) || timer in idle.stale
      modifies this`idleTimer, this`isSealed, this`cancelling, this`idleTimeoutError, this`idle
      ensures Valid()
      ensures idle == IdleDeadline.Step(old(idle), idleTimeout, if old(idleTimer) == Some(timer) then IdleDeadline.Fire else IdleDeadline.FireStale(timer))
      ensures if isSealed && !old(isSealed) then handles == activeHandles && tasks == adoptedTasks.Keys else handles == {} && tasks == {}
      ensures isSealed && !old(isSealed) ==> cancelling && idleTimeoutError
      ensures isSealed == old(isSealed) ==> cancelling == old(cancelling)
    {
      IdleDeadline.FiringIs(idle, idleTimeout, timer);
      handles, tasks := Expire(timer, now);
    }

    method Expire(timer: IdleDeadline.Timer, now: real) returns (handles: set<nat>, tasks: set<nat>)
      requires TimerValid() && now == idle.now && (timer.token == idleTimerToken <==> idleTimer == Some(timer))
      requires idleTimer.Some? ==> idleTimeout.Some? && !isSealed && idle.work > 0
      modifies this`idleTimer, this`isSealed, this`cancelling, this`idleTimeoutError, this`idle
      ensures TimerValid()
      ensures idle == if old(idleTimer) == Some(timer) then IdleDeadline.Reached(old(idle).(timer := None), idleTimeout, timer.token)
                      else old(idle).(stale := old(idle).stale - {timer})
      ensures if isSealed && !old(isSealed) then handles == activeHandles && tasks == adoptedTasks.Keys else handles == {} && tasks == {}
      ensures isSealed && !old(isSealed) ==> cancelling && idleTimeoutError
      ensures isSealed == old(isSealed) ==> cancelling == old(cancelling)
    {
      idle := if idleTimer == Some(timer) then IdleDeadline.Reached(idle.(timer := None), idleTimeout, timer.token)
              else idle.(stale := idle.stale - {timer});
      handles, tasks := {}, {};
      if timer.token != idleTimerToken || idleTimeout.None? || isSealed || !HasActiveWork() {
        return;
      }
      idleTimer := None;
      var elapsed := now - lastActivity;
      if elapsed < idleTimeout.value {
        idleTimer := Some(IdleDeadline.Timer(now + (idleTimeout.value - elapsed), timer.token));
        return;
      }
      idleTimeoutError, isSealed, cancelling := true, true, true;
      handles, tasks := activeHandles, adoptedTasks.Keys;
    }

    method Seal()
      requires Valid()
      modifies this`isSealed, this`idleTimer, this`idleTimerToken, this`idle
      ensures Valid() && idle == IdleDeadline.Step(old(idle), idleTimeout, IdleDeadline.Seal)
      ensures isSealed && idleTimer.None? && idleTimerToken == old(idleTimerToken) + 1
    {
      idle := IdleDeadline.Step(idle, idleTimeout, IdleDeadline.Seal);
      isSealed := true;
      idleTimer := None;
      idleTimerToken := idleTimerToken + 1;
    }

    // ------------------------------------------------------ late callbacks

    /** `_submit_callback_drain_locked` for a submitted handle made for `home`, with
        its loop running: bind to the handle's home, or refuse to cross the epoch.
        The timer is not touched. */
    method SubmitCallbackDrain(h: nat, home: Epoch.Backend, offered: nat) returns (r: Result<(), Failure>)
      requires Valid() && offered == epoch.leases
      requires h < |epoch.homes| && h < |epoch.pending| && epoch.homes[h] == home && h !in epoch.unsubmitted
      modifies this`activeBackend, this`activeLoop, this`generationLease, this`activeHandles, this`epoch, this`idle
      ensures Valid() && epoch == Epoch.Step(old(epoch), Epoch.Late(h))
      ensures r == if Epoch.AdmitsLate(old(epoch), h) then Ok(()) else Err(CrossesEpoch)
      ensures idle == if r.Err? || h in old(activeHandles) then old(idle) else IdleDeadline.Step(old(idle), idleTimeout, IdleDeadline.LateStart)
    {
      if activeBackend.None? {
        BindHome(home, offered);
      } else if BackendOf(activeBackend, activeLoop) != Some(home) {
        return Err(CrossesEpoch);
      }
      Reenlist(h);
      r := Ok(());
    }

    method BindHome(home: Epoch.Backend, offered: nat)
      requires EpochValid() && offered == epoch.leases && activeBackend.None?
      modifies this`activeBackend, this`activeLoop, this`generationLease, this`epoch
      ensures EpochValid() && epoch == Epoch.Resolve(old(epoch), home)
    {
      epoch := Epoch.Resolve(epoch, home);
      if home.Caller? {
        activeBackend, activeLoop := Some(CallerKind), Some(home.loop);
      } else {
        activeBackend, activeLoop := Some(StageKind), None;
        generationLease := Some(offered);
      }
    }

    method Reenlist(h: nat)
      requires EpochValid() && TimerValid() && h < |epoch.homes| && h < |epoch.pending|
      modifies this`activeHandles, this`epoch, this`idle
      ensures EpochValid()
      ensures epoch == Epoch.Revive(old(epoch), h)
      ensures TimerValid()
      ensures idle == if h in old(activeHandles) then old(idle) else IdleDeadline.EnteredLate(old(idle))
    {
      epoch := Epoch.Revive(epoch, h);
      if h !in activeHandles {
        idle := IdleDeadline.EnteredLate(idle);
      }
      activeHandles := activeHandles + {h};
    }
  }

  lemma SizeWith<K, V>(m: map<K, V>, k: K, v: V)
    requires k !in m
    ensures |m[k := v]| == |m| + 1 && m[k := v].Keys == m.Keys + {k}
  {
    assert m[k := v].Keys == m.Keys + {k};
    assert |m[k := v].Keys| == |m[k := v]| && |m.Keys| == |m|;
  }

  lemma SizeWithout<K, V>(m: map<K, V>, k: K)
    requires k in m
    ensures |m - {k}| == |m| - 1 && (m - {k}).Keys == m.Keys - {k}
  {
    assert (m - {k}).Keys == m.Keys - {k};
    assert |(m - {k}).Keys| == |m - {k}| && |m.Keys| == |m|;
  }
}
