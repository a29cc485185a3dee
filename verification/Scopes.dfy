/**
  The operations that span a Stage and one of its handles: each takes both locks,
  or one after the other, and keeps the two counts of the handle's work equal.
 */
module Scopes {
  import opened Common
  import Epoch
  import Settlement
  import CallbackDrain
  import ErrorLedger
  import opened Stages
  import opened StageHandles

  /** `handle` is number `h` of `stage`: the Stage's model counts its pending work,
      and its body cannot have run before it was submitted. */
  ghost predicate Linked(stage: Stage, handle: StageHandle, h: nat)
    reads stage, handle
  {
    && h < |stage.epoch.homes| && h < |stage.epoch.pending|
    && handle.pendingWork == stage.epoch.pending[h]
    && (handle.bodyCompleted ==> h !in stage.epoch.unsubmitted)
  }

  /** One unit of work more: the first submission, or a descendant. */
  method Retain(stage: Stage, handle: StageHandle, h: nat)
    requires stage.Valid() && handle.SettlementValid() && Linked(stage, handle, h)
    requires handle.pendingWork > 0 || h in stage.epoch.unsubmitted
    modifies stage`epoch, handle`pendingWork, handle`barrier, handle`barriersMade, handle`settlement
    ensures stage.Valid() && handle.SettlementValid() && Linked(stage, handle, h)
    ensures stage.epoch == Epoch.Step(old(stage.epoch), Epoch.Retain(h))
    ensures handle.settlement == Settlement.Step(old(handle.settlement), Settlement.Retain)
  {
    handle.RetainWork();
    stage.Counted(h, true);
  }

  /** One unit less; the answer says that the caller owes the Stage a report. */
  method Release(stage: Stage, handle: StageHandle, h: nat) returns (r: Result<bool, ()>)
    requires stage.Valid() && handle.SettlementValid() && Linked(stage, handle, h)
    modifies stage`epoch, handle`pendingWork, handle`resolvedBarriers, handle`settlement
    ensures stage.Valid() && handle.SettlementValid() && Linked(stage, handle, h)
    ensures r == if old(handle.pendingWork) == 0 then Err(()) else Ok(handle.pendingWork == 0)
    ensures stage.epoch == Epoch.Step(old(stage.epoch), Epoch.Release(h))
    ensures r == Ok(true) ==> h in stage.epoch.quiescing
  {
    r := handle.ReleaseWork();
    stage.Counted(h, false);
  }

  /** `_handle_quiescent` as a whole: the errors leave the handle in one critical
      section and reach the Stage in the next. */
  method Report(stage: Stage, handle: StageHandle, h: nat) returns (lease: Option<nat>)
    requires stage.Valid() && handle.ErrorsValid() && Linked(stage, handle, h) && h in stage.epoch.quiescing
    modifies stage, handle`stageErrorCursor
    ensures stage.Valid() && handle.ErrorsValid() && Linked(stage, handle, h)
    ensures stage.epoch == Epoch.Step(old(stage.epoch), Epoch.Quiesce(h))
    ensures stage.scopeSettlementErrors ==
            old(stage.scopeSettlementErrors) + ErrorLedger.Foreign(handle.settlementErrors[old(handle.stageErrorCursor)..], handle.bodyError)
    ensures handle.stageErrorCursor == |handle.settlementErrors|
    ensures lease == if Epoch.HasWork(stage.epoch) then None else old(stage.epoch.lease)
  {
    var errors := handle.TakeUnreportedStageErrors();
    lease := stage.HandleQuiescent(h, errors);
  }

  /** A callback that arrives after the body's outcome and finds no drainer. */
  ghost predicate Late(handle: StageHandle)
    reads handle
  {
    handle.bodyCompleted && !handle.drainActive
  }

  /** `_register_callback` under the scope lock.  It is refused on a sealed scope from
      outside, and when a drain is needed that would cross the epoch; a refusal
      changes nothing. */
  method RegisterCallback(stage: Stage, handle: StageHandle, h: nat, home: Epoch.Backend, offered: nat,
                          c: CallbackDrain.Callback, nested: bool) returns (r: Result<(), Failure>)
    requires stage.Valid() && offered == stage.epoch.leases && Linked(stage, handle, h) && stage.epoch.homes[h] == home
    requires handle.SettlementValid() && handle.DrainValid() && handle.drain.registering.None?
    modifies stage, handle
    ensures stage.Valid() && Linked(stage, handle, h)
    ensures handle.SettlementValid() && handle.DrainValid() && handle.drain.registering.None?
    ensures r == Err(Closed) <==> old(stage.isSealed) && !nested
    ensures r == Err(CrossesEpoch) <==>
            !(old(stage.isSealed) && !nested) && old(Late(handle)) && !Epoch.AdmitsLate(old(stage.epoch), h)
    ensures r.Err? ==> r.error == Closed || r.error == CrossesEpoch
    ensures r.Err? ==> handle.callbacks == old(handle.callbacks) && handle.drain == old(handle.drain)
    ensures r.Err? ==> stage.epoch == old(stage.epoch) && handle.settlement == old(handle.settlement)
    ensures r.Ok? ==> handle.callbacks == old(handle.callbacks) + [c] && handle.drain.accepted == old(handle.drain.accepted) + [c]
    ensures r.Ok? ==>
              if old(Late(handle)) then
                && stage.epoch == Epoch.Step(old(stage.epoch), Epoch.Late(h))
                && handle.settlement == Settlement.Step(old(handle.settlement), Settlement.Retain)
              else stage.epoch == old(stage.epoch) && handle.settlement == old(handle.settlement)
  {
    if stage.isSealed && !nested {
      return Err(Closed);
    }
    r := RegisterOpen(stage, handle, h, home, offered, c);
  }

  method RegisterOpen(stage: Stage, handle: StageHandle, h: nat, home: Epoch.Backend, offered: nat, c: CallbackDrain.Callback)
    returns (r: Result<(), Failure>)
    requires stage.Valid() && offered == stage.epoch.leases && Linked(stage, handle, h) && stage.epoch.homes[h] == home
    requires handle.SettlementValid() && handle.DrainValid() && handle.drain.registering.None?
    modifies stage, handle`callbacks, handle`drainActive, handle`drain, handle`pendingWork, handle`barrier, handle`barriersMade, handle`settlement
    ensures stage.Valid() && Linked(stage, handle, h)
    ensures handle.SettlementValid() && handle.DrainValid() && handle.drain.registering.None?
    ensures r == if old(Late(handle)) && !Epoch.AdmitsLate(old(stage.epoch), h) then Err(CrossesEpoch) else Ok(())
    ensures r.Err? ==> handle.drain == old(handle.drain)
    ensures r.Ok? ==> handle.drain.queue == old(handle.drain.queue) + [c] && handle.drain.accepted == old(handle.drain.accepted) + [c]
    ensures stage.epoch == if old(Late(handle)) then Epoch.Step(old(stage.epoch), Epoch.Late(h)) else old(stage.epoch)
    ensures handle.settlement ==
            if r.Ok? && old(Late(handle)) then Settlement.Step(old(handle.settlement), Settlement.Retain) else old(handle.settlement)
  {
    CallbackDrain.RegisterEffect(handle.drain, c);
    var shouldStart := handle.Enqueue(c);
    if !shouldStart {
      return Ok(());
    }
    r := SubmitDrain(stage, handle, h, home, offered);
  }

  /** The drain of a held registration: submitted with its unit of work, or undone. */
  method SubmitDrain(stage: Stage, handle: StageHandle, h: nat, home: Epoch.Backend, offered: nat) returns (r: Result<(), Failure>)
    requires stage.Valid() && offered == stage.epoch.leases && Linked(stage, handle, h) && stage.epoch.homes[h] == home
    requires handle.SettlementValid() && handle.DrainValid() && handle.drain.registering.Some?
    modifies stage, handle`callbacks, handle`drainActive, handle`drain, handle`pendingWork, handle`barrier, handle`barriersMade, handle`settlement
    ensures stage.Valid() && Linked(stage, handle, h) && handle.SettlementValid() && handle.DrainValid()
    ensures r == if Epoch.AdmitsLate(old(stage.epoch), h) then Ok(()) else Err(CrossesEpoch)
    ensures handle.drain == CallbackDrain.Step(old(handle.drain), if r.Ok? then CallbackDrain.SubmitOk else CallbackDrain.SubmitFail)
    ensures stage.epoch == Epoch.Step(old(stage.epoch), Epoch.Late(h))
    ensures handle.settlement == if r.Ok? then Settlement.Step(old(handle.settlement), Settlement.Retain) else old(handle.settlement)
  {
    r := stage.SubmitCallbackDrain(h, home, offered);
    if r.Err? {
      handle.Withdraw();
      return;
    }
    handle.RetainWork();
    handle.Submitted();
  }
}
