/**
  `StageHandle` with the fields its methods update.  The ghost states are the
  models of its settlement barrier, cancellation fence and callback queue; every
  method keeps them in step with the fields.
 */
module StageHandles {
  import opened Common
  import Settlement
  import CancelFence
  import CallbackDrain
  import ErrorLedger

  datatype Phase = Body | SettlementPhase

  class StageHandle {
    var pendingWork: nat
    var barrier: nat
    var resolvedBarriers: set<nat>
    var barriersMade: nat
    var settlementErrors: seq<nat>
    var stageErrorCursor: nat
    var ownerTask: Option<nat>
    var ownedBodyTasks: set<nat>
    var ownedSettlementTasks: set<nat>
    var cancelRequested: bool
    var bodyCompleted: bool
    var bodyError: Option<nat>
    var callbacks: seq<CallbackDrain.Callback>
    var drainActive: bool
    ghost var settlement: Settlement.State
    ghost var fence: CancelFence.State
    ghost var drain: CallbackDrain.State

    ghost predicate SettlementValid()
      reads this`pendingWork, this`barrier, this`resolvedBarriers, this`barriersMade, this`settlement
    {
      && settlement == Settlement.State(pendingWork, barrier, resolvedBarriers, barriersMade)
      && Settlement.Inv(settlement)
    }

    ghost predicate ErrorsValid()
      reads this`settlementErrors, this`stageErrorCursor
    {
      stageErrorCursor <= |settlementErrors|
    }

    ghost predicate FenceValid()
      reads this`ownerTask, this`ownedBodyTasks, this`ownedSettlementTasks, this`bodyCompleted, this`cancelRequested, this`fence
    {
      && (fence.owner, fence.bodyTasks, fence.settlementTasks) == (ownerTask, ownedBodyTasks, ownedSettlementTasks)
      && (fence.bodyDone, fence.cancelRequested) == (bodyCompleted, cancelRequested)
      && CancelFence.Inv(fence)
    }

    ghost predicate DrainValid()
      reads this`bodyCompleted, this`bodyError, this`callbacks, this`drainActive, this`drain
    {
      && (drain.completed, drain.failed) == (bodyCompleted, bodyError.Some?)
      && (drain.queue, drain.active) == (callbacks, drainActive)
      && CallbackDrain.Inv(drain)
    }

    ghost predicate Valid()
      reads this
    {
      SettlementValid() && ErrorsValid() && FenceValid() && DrainValid()
    }

    constructor ()
      ensures Valid() && settlement == Settlement.IDLE && fence == CancelFence.NEW && drain == CallbackDrain.NEW
      ensures settlementErrors == [] && stageErrorCursor == 0 && bodyError.None?
    {
      pendingWork, barrier, resolvedBarriers, barriersMade := 0, 0, {0}, 0;
      settlementErrors, stageErrorCursor := [], 0;
      ownerTask, ownedBodyTasks, ownedSettlementTasks, cancelRequested := None, {}, {}, false;
      bodyCompleted, bodyError, callbacks, drainActive := false, None, [], false;
      settlement, fence, drain := Settlement.IDLE, CancelFence.NEW, CallbackDrain.NEW;
    }

    // -------------------------------------------------------- settlement

    method RetainWork()
      requires SettlementValid()
      modifies this`pendingWork, this`barrier, this`barriersMade, this`settlement
      ensures SettlementValid() && settlement == Settlement.Step(old(settlement), Settlement.Retain)
      ensures pendingWork == old(pendingWork) + 1 && (old(pendingWork) == 0 ==> barrier !in resolvedBarriers)
    {
      if pendingWork == 0 {
        barriersMade := barriersMade + 1;
        barrier := barriersMade;
      }
      pendingWork := pendingWork + 1;
      settlement := Settlement.Step(settlement, Settlement.Retain);
    }

    /** `quiescent` says that the Stage is to be told; underflow is refused. */
    method ReleaseWork() returns (r: Result<bool, ()>)
      requires SettlementValid()
      modifies this`pendingWork, this`resolvedBarriers, this`settlement
      ensures SettlementValid() && settlement == Settlement.Step(old(settlement), Settlement.Release)
      ensures r == if old(pendingWork) == 0 then Err(()) else Ok(pendingWork == 0)
      ensures r == Ok(true) ==> barrier in resolvedBarriers && barrier !in old(resolvedBarriers)
    {
      if pendingWork <= 0 {
        return Err(());
      }
      pendingWork := pendingWork - 1;
      var quiescent := false;
      if pendingWork == 0 {
        quiescent := true;
        if barrier !in resolvedBarriers {
          resolvedBarriers := resolvedBarriers + {barrier};
        }
      }
      settlement := Settlement.Step(settlement, Settlement.Release);
      r := Ok(quiescent);
    }

    // ------------------------------------------------------------ errors

    method RecordSettlementError(error: nat)
      requires ErrorsValid()
      modifies this`settlementErrors
      ensures ErrorsValid() && settlementErrors == old(settlementErrors) + [error]
    {
      settlementErrors := settlementErrors + [error];
    }

    /** What was recorded since the last call, without the body's own error. */
    method TakeUnreportedStageErrors() returns (errors: seq<nat>)
      requires ErrorsValid()
      modifies this`stageErrorCursor
      ensures ErrorsValid() && stageErrorCursor == |settlementErrors|
      ensures errors == ErrorLedger.Foreign(settlementErrors[old(stageErrorCursor)..], bodyError)
    {
      errors := [];
      ghost var unreported := settlementErrors[stageErrorCursor..];
      for i := stageErrorCursor to |settlementErrors|
        invariant errors == ErrorLedger.Foreign(unreported[..i - stageErrorCursor], bodyError)
      {
        ghost var k := i - stageErrorCursor;
        assert unreported[..k + 1][..k] == unreported[..k] && unreported[..k + 1][k] == settlementErrors[i];
        if bodyError != Some(settlementErrors[i]) {
          errors := errors + [settlementErrors[i]];
        }
      }
      assert unreported[..|unreported|] == unreported;
      stageErrorCursor := |settlementErrors|;
    }

    // ------------------------------------------------------ cancellation

    method SetOwnerTask(task: nat) returns (shouldCancel: bool)
      requires FenceValid() && ownerTask.None? && CancelFence.Fresh(fence, task)
      modifies this`ownerTask, this`fence
      ensures FenceValid() && fence == CancelFence.Step(old(fence), CancelFence.SetOwner(task))
      ensures ownerTask == Some(task) && (shouldCancel <==> cancelRequested) && (shouldCancel <==> task in fence.owed)
    {
      CancelFence.StepKeepsInv(fence, CancelFence.SetOwner(task));
      assert !CancelFence.Reached(fence, task);
      ownerTask := Some(task);
      fence := CancelFence.Step(fence, CancelFence.SetOwner(task));
      shouldCancel := cancelRequested;
    }

    method RegisterOwnedTask(task: nat, phase: Phase) returns (shouldCancel: bool)
      requires FenceValid() && CancelFence.Fresh(fence, task) && (phase.Body? ==> ownerTask.Some?)
      modifies this`ownedBodyTasks, this`ownedSettlementTasks, this`fence
      ensures FenceValid()
      ensures fence == CancelFence.Step(old(fence), if phase.Body? then CancelFence.RegisterBody(task) else CancelFence.RegisterSettlement(task))
      ensures shouldCancel <==> phase.Body? && cancelRequested
      ensures shouldCancel <==> task in fence.owed
    {
      ghost var e := if phase.Body? then CancelFence.RegisterBody(task) else CancelFence.RegisterSettlement(task);
      CancelFence.StepKeepsInv(fence, e);
      assert !CancelFence.Reached(fence, task);
      if phase.Body? {
        ownedBodyTasks := ownedBodyTasks + {task};
        shouldCancel := cancelRequested;
      } else {
        ownedSettlementTasks := ownedSettlementTasks + {task};
        shouldCancel := false;
      }
      fence := CancelFence.Step(fence, e);
    }

    method UnregisterOwnedTask(task: nat)
      requires FenceValid()
      modifies this`ownedBodyTasks, this`ownedSettlementTasks, this`fence
      ensures FenceValid() && fence == CancelFence.Step(old(fence), CancelFence.Done(task))
    {
      CancelFence.StepKeepsInv(fence, CancelFence.Done(task));
      ownedBodyTasks := ownedBodyTasks - {task};
      ownedSettlementTasks := ownedSettlementTasks - {task};
      fence := CancelFence.Step(fence, CancelFence.Done(task));
    }

    /** `cancel` up to its wait: whether it is accepted, and the tasks named in the
        call handed to the owner loop, if there is a loop. */
    method Cancel() returns (accepted: bool, call: Option<set<nat>>)
      requires FenceValid()
      modifies this`cancelRequested, this`fence
      ensures FenceValid() && fence == CancelFence.Step(old(fence), CancelFence.Cancel)
      ensures accepted <==> !old(bodyCompleted) || old(ownedBodyTasks) != {}
      ensures cancelRequested == (accepted || old(cancelRequested))
      ensures call == if accepted && ownerTask.Some? then Some({ownerTask.value} + ownedBodyTasks) else None
      ensures fence.scheduled == old(fence.scheduled) + (if call.Some? then [call.value] else [])
    {
      CancelFence.StepKeepsInv(fence, CancelFence.Cancel);
      if bodyCompleted && ownedBodyTasks == {} {
        return false, None;
      }
      cancelRequested := true;
      call := if ownerTask.Some? then Some({ownerTask.value} + ownedBodyTasks) else None;
      fence := CancelFence.Step(fence, CancelFence.Cancel);
      accepted := true;
    }

    /** The owner loop runs the oldest `_cancel_tasks` call ... */
    ghost method CancelScheduled()
      requires FenceValid()
      modifies this`fence
      ensures FenceValid() && fence == CancelFence.Step(old(fence), CancelFence.RunScheduled)
    {
      CancelFence.StepKeepsInv(fence, CancelFence.RunScheduled);
      fence := CancelFence.Step(fence, CancelFence.RunScheduled);
    }

    /** ... and whoever was told to cancel a task does so. */
    ghost method CancelOwed(task: nat)
      requires FenceValid()
      modifies this`fence
      ensures FenceValid() && fence == CancelFence.Step(old(fence), CancelFence.CancelOwed(task))
    {
      CancelFence.StepKeepsInv(fence, CancelFence.CancelOwed(task));
      fence := CancelFence.Step(fence, CancelFence.CancelOwed(task));
    }

    // --------------------------------------------------------- callbacks

    /** `_set_body_result`, `_set_body_exception` and `_set_body_cancelled`: the
        first outcome wins; the answer says that the caller must start a drain. */
    method SetBody(error: Option<nat>) returns (shouldStart: bool)
      requires FenceValid() && DrainValid()
      modifies this`bodyCompleted, this`bodyError, this`drainActive, this`drain, this`fence
      ensures FenceValid() && DrainValid()
      ensures drain == CallbackDrain.Step(old(drain), CallbackDrain.SetBody(error.Some?))
      ensures fence == if old(bodyCompleted) then old(fence) else CancelFence.Step(old(fence), CancelFence.BodyOutcome)
      ensures bodyError == if old(bodyCompleted) then old(bodyError) else error
      ensures shouldStart <==> !old(bodyCompleted) && callbacks != []
      ensures shouldStart <==> drain.owed > old(drain.owed)
    {
      if bodyCompleted {
        return false;
      }
      CallbackDrain.StepKeepsInv(drain, CallbackDrain.SetBody(error.Some?));
      CancelFence.StepKeepsInv(fence, CancelFence.BodyOutcome);
      bodyCompleted := true;
      bodyError := error;
      shouldStart := callbacks != [] && !drainActive;
      if shouldStart {
        drainActive := true;
      }
      drain := CallbackDrain.Step(drain, CallbackDrain.SetBody(error.Some?));
      fence := CancelFence.Step(fence, CancelFence.BodyOutcome);
    }

    /** The first half of `_register_callback`: append, and claim the drain. */
    method Enqueue(c: CallbackDrain.Callback) returns (shouldStart: bool)
      requires DrainValid() && drain.registering.None?
      modifies this`callbacks, this`drainActive, this`drain
      ensures DrainValid() && drain == CallbackDrain.Step(old(drain), CallbackDrain.Register(c))
      ensures shouldStart <==> bodyCompleted && !old(drainActive)
      ensures callbacks == old(callbacks) + [c] && (shouldStart <==> drain.registering.Some?)
    {
      CallbackDrain.StepKeepsInv(drain, CallbackDrain.Register(c));
      callbacks := callbacks + [c];
      shouldStart := bodyCompleted && callbacks != [] && !drainActive;
      if shouldStart {
        drainActive := true;
      }
      drain := CallbackDrain.Step(drain, CallbackDrain.Register(c));
    }

    /** Undo a claim whose drain could not be submitted. */
    method Withdraw()
      requires DrainValid() && drain.registering.Some?
      modifies this`callbacks, this`drainActive, this`drain
      ensures DrainValid() && drain == CallbackDrain.Step(old(drain), CallbackDrain.SubmitFail)
    {
      CallbackDrain.StepKeepsInv(drain, CallbackDrain.SubmitFail);
      callbacks := callbacks[..|callbacks| - 1];
      drainActive := false;
      drain := CallbackDrain.Step(drain, CallbackDrain.SubmitFail);
    }

    /** The drain that a late registration asked for has been submitted. */
    ghost method Submitted()
      requires DrainValid() && drain.registering.Some?
      modifies this`drain
      ensures DrainValid() && drain == CallbackDrain.Step(old(drain), CallbackDrain.SubmitOk)
    {
      CallbackDrain.StepKeepsInv(drain, CallbackDrain.SubmitOk);
      drain := CallbackDrain.Step(drain, CallbackDrain.SubmitOk);
    }

    /** A drain that was promised or submitted begins. */
    ghost method BeginDrain()
      requires DrainValid()
      modifies this`drain
      ensures DrainValid() && drain == CallbackDrain.Step(old(drain), CallbackDrain.BeginDrain)
    {
      CallbackDrain.StepKeepsInv(drain, CallbackDrain.BeginDrain);
      drain := CallbackDrain.Step(drain, CallbackDrain.BeginDrain);
    }

    /** One pass of `_drain_callbacks` through its critical section: the callback to
        run, if its kind fits the outcome, and whether the queue was empty. */
    method DrainOne() returns (ran: Option<CallbackDrain.Callback>, finished: bool)
      requires DrainValid() && drain.running == 1
      modifies this`callbacks, this`drainActive, this`drain
      ensures DrainValid() && drain == CallbackDrain.Step(old(drain), CallbackDrain.DrainOne)
      ensures finished <==> old(callbacks) == []
      ensures old(callbacks) == [] ==> callbacks == [] && !drainActive && ran.None?
      ensures old(callbacks) != [] ==>
                var c := old(callbacks)[0];
                && callbacks == old(callbacks)[1..] && drainActive == old(drainActive)
                && ran == if c.kind == CallbackDrain.Finally
                             || (c.kind == CallbackDrain.Success && bodyError.None?)
                             || (c.kind == CallbackDrain.Error && bodyError.Some?) then Some(c) else None
      ensures drain.ran == old(drain.ran) + if ran.Some? then [ran.value] else []
    {
      CallbackDrain.DrainOneDoes(drain);
      ghost var n := |drain.ran|;
      ran, finished := DrainPass();
      assert drain.ran[n..] == if ran.Some? then [ran.value] else [];
    }

    method DrainPass() returns (ran: Option<CallbackDrain.Callback>, finished: bool)
      requires DrainValid() && drain.running == 1
      modifies this`callbacks, this`drainActive, this`drain
      ensures DrainValid() && drain == CallbackDrain.Step(old(drain), CallbackDrain.DrainOne)
      ensures finished <==> old(callbacks) == []
      ensures drain.ran == old(drain.ran) + if ran.Some? then [ran.value] else []
    {
      CallbackDrain.StepKeepsInv(drain, CallbackDrain.DrainOne);
      ran, finished := None, callbacks == [];
      drain := CallbackDrain.Step(drain, CallbackDrain.DrainOne);
      if callbacks == [] {
        drainActive := false;
        return;
      }
      var c := callbacks[0];
      callbacks := callbacks[1..];
      if c.kind == CallbackDrain.Success && bodyError.None? {
        ran := Some(c);
      } else if c.kind == CallbackDrain.Error && bodyError.Some? {
        ran := Some(c);
      } else if c.kind == CallbackDrain.Finally {
        ran := Some(c);
      }
    }

    /** `_drain_callbacks`, undisturbed: everything queued leaves in order, what
        fits the outcome runs, and the flag is cleared last. */
    method DrainCallbacks() returns (ran: seq<CallbackDrain.Callback>)
      requires DrainValid() && drain.running == 1
      modifies this`callbacks, this`drainActive, this`drain
      ensures DrainValid() && callbacks == [] && !drainActive && drain.running == 0
      ensures drain.ran == old(drain.ran) + ran && drain.taken == old(drain.taken) + old(callbacks)
    {
      ran := [];
      var finished := false;
      while !finished
        invariant DrainValid() && drain.running == (if finished then 0 else 1)
        invariant finished ==> callbacks == [] && !drainActive
        invariant drain.ran == old(drain.ran) + ran && drain.taken + callbacks == old(drain.taken) + old(callbacks)
        decreases |callbacks|, !finished
      {
        ghost var queue := callbacks;
        assert queue != [] ==> queue == [queue[0]] + queue[1..];
        var next: Option<CallbackDrain.Callback>;
        next, finished := DrainPass();
        ran := ran + if next.Some? then [next.value] else [];
      }
      assert drain.taken + [] == drain.taken;
    }
  }
}
