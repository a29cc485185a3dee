/** Any calls on a handle are runs of its models. */
module HandleRuns {
  import opened Common
  import Settlement
  import CancelFence
  import CallbackDrain
  import opened StageHandles

  /** The methods of StageHandle, and what happens around it: a drain is submitted or
      refused and begins, a request to cancel is carried out. */
  datatype Call =
    | Retain
    | Release
    | Record(error: nat)
    | TakeErrors
    | SetOwner(task: nat)
    | RegisterTask(task: nat, phase: Phase)
    | TaskDone(task: nat)
    | Cancel
    | CancelScheduled
    | CancelOwed(task: nat)
    | SetBody(outcome: Option<nat>)
    | Enqueue(callback: CallbackDrain.Callback)
    | Submitted
    | Withdraw
    | BeginDrain
    | DrainOne

  datatype Models = Models(
    settlement: Settlement.State,
    fence: CancelFence.State,
    drain: CallbackDrain.State,
    errors: seq<nat>,
    cursor: nat,
    bodyError: Option<nat>)

  const NEW := Models(Settlement.IDLE, CancelFence.NEW, CallbackDrain.NEW, [], 0, None)

  function FenceEvent(m: Models, c: Call): Option<CancelFence.Event> {
    match c
    case SetOwner(t) => Some(CancelFence.SetOwner(t))
    case RegisterTask(t, phase) => Some(if phase.Body? then CancelFence.RegisterBody(t) else CancelFence.RegisterSettlement(t))
    case TaskDone(t) => Some(CancelFence.Done(t))
    case Cancel => Some(CancelFence.Cancel)
    case CancelScheduled => Some(CancelFence.RunScheduled)
    case CancelOwed(t) => Some(CancelFence.CancelOwed(t))
    case SetBody(_) => if m.fence.bodyDone then None else Some(CancelFence.BodyOutcome)
    case _ => None
  }

  function DrainEvent(c: Call): Option<CallbackDrain.Event> {
    match c
    case SetBody(err) => Some(CallbackDrain.SetBody(err.Some?))
    case Enqueue(cb) => Some(CallbackDrain.Register(cb))
    case Submitted => Some(CallbackDrain.SubmitOk)
    case Withdraw => Some(CallbackDrain.SubmitFail)
    case BeginDrain => Some(CallbackDrain.BeginDrain)
    case DrainOne => Some(CallbackDrain.DrainOne)
    case _ => None
  }

  function SettlementEvent(c: Call): Option<Settlement.Event> {
    match c
    case Retain => Some(Settlement.Retain)
    case Release => Some(Settlement.Release)
    case _ => None
  }

  function FenceAfter(s: CancelFence.State, o: Option<CancelFence.Event>): CancelFence.State {
    if o.Some? then CancelFence.Step(s, o.value) else s
  }

  function DrainAfter(s: CallbackDrain.State, o: Option<CallbackDrain.Event>): CallbackDrain.State {
    if o.Some? then CallbackDrain.Step(s, o.value) else s
  }

  function SettlementAfter(s: Settlement.State, o: Option<Settlement.Event>): Settlement.State {
    if o.Some? then Settlement.Step(s, o.value) else s
  }

  function After(m: Models, c: Call): Models {
    Models(
      SettlementAfter(m.settlement, SettlementEvent(c)),
      FenceAfter(m.fence, FenceEvent(m, c)),
      DrainAfter(m.drain, DrainEvent(c)),
      if c.Record? then m.errors + [c.error] else m.errors,
      if c.TakeErrors? then |m.errors| else m.cursor,
      if c.SetBody? && !m.fence.bodyDone then c.outcome else m.bodyError)
  }

  function AfterAll(calls: seq<Call>): Models
    decreases |calls|
  {
    if calls == [] then NEW else After(AfterAll(calls[..|calls| - 1]), calls[|calls| - 1])
  }

  ghost predicate At(handle: StageHandle, m: Models)
    reads handle
  {
    && handle.Valid()
    && Models(handle.settlement, handle.fence, handle.drain, handle.settlementErrors, handle.stageErrorCursor, handle.bodyError) == m
  }

  method PerformWork(handle: StageHandle, m: Models, c: Call)
    requires At(handle, m) && (c.Retain? || c.Release? || c.Record?)
    modifies handle
    ensures At(handle, After(m, c))
  {
    match c {
      case Retain => handle.RetainWork();
      case Release => var r := handle.ReleaseWork();
      case Record(err) => handle.RecordSettlementError(err);
    }
  }

  method PerformTake(handle: StageHandle, m: Models)
    requires At(handle, m)
    modifies handle
    ensures At(handle, After(m, TakeErrors))
  {
    var errors := handle.TakeUnreportedStageErrors();
  }

  method PerformTask(handle: StageHandle, m: Models, c: Call)
    requires At(handle, m) && (c.SetOwner? || c.RegisterTask? || c.TaskDone?)
    modifies handle
    ensures At(handle, After(m, c))
  {
    match c {
      case SetOwner(t) =>
        if m.fence.owner.None? && CancelFence.Fresh(m.fence, t) {
          var shouldCancel := handle.SetOwnerTask(t);
        }
      case RegisterTask(t, phase) =>
        if CancelFence.Fresh(m.fence, t) && (phase.Body? ==> m.fence.owner.Some?) {
          var shouldCancel := handle.RegisterOwnedTask(t, phase);
        }
      case TaskDone(t) => handle.UnregisterOwnedTask(t);
    }
  }

  method PerformCancel(handle: StageHandle, m: Models, c: Call)
    requires At(handle, m) && (c.Cancel? || c.CancelScheduled? || c.CancelOwed?)
    modifies handle
    ensures At(handle, After(m, c))
  {
    match c {
      case Cancel => var accepted, call := handle.Cancel();
      case CancelScheduled => handle.CancelScheduled();
      case CancelOwed(t) => handle.CancelOwed(t);
    }
  }

  method PerformSetBody(handle: StageHandle, m: Models, c: Call)
    requires At(handle, m) && (c.SetBody?)
    modifies handle
    ensures At(handle, After(m, c))
  {
    match c {
      case SetBody(err) => var shouldStart := handle.SetBody(err);
    }
  }

  lemma DrainOnly(m: Models, c: Call)
    requires c.Enqueue? || c.Submitted? || c.Withdraw? || c.BeginDrain? || c.DrainOne?
    ensures After(m, c) == m.(drain := CallbackDrain.Step(m.drain, DrainEvent(c).value))
  {
  }

  method PerformEnqueue(handle: StageHandle, m: Models, c: CallbackDrain.Callback)
    requires At(handle, m)
    modifies handle
    ensures At(handle, After(m, Enqueue(c)))
  {
    DrainOnly(m, Enqueue(c));
    PassEnqueue(handle, m.drain, c);
  }

  method PassEnqueue(handle: StageHandle, d: CallbackDrain.State, c: CallbackDrain.Callback)
    requires handle.DrainValid() && handle.drain == d
    modifies handle`callbacks, handle`drainActive, handle`drain
    ensures handle.DrainValid() && handle.drain == CallbackDrain.Step(d, CallbackDrain.Register(c))
  {
    if d.registering.None? {
      var shouldStart := handle.Enqueue(c);
    }
  }

  method PerformSubmitted(handle: StageHandle, m: Models)
    requires At(handle, m)
    modifies handle
    ensures At(handle, After(m, Submitted))
  {
    if m.drain.registering.Some? {
      handle.Submitted();
    }
  }

  method PerformWithdraw(handle: StageHandle, m: Models)
    requires At(handle, m)
    modifies handle
    ensures At(handle, After(m, Withdraw))
  {
    if m.drain.registering.Some? {
      handle.Withdraw();
    }
  }

  method PerformDrainOne(handle: StageHandle, m: Models)
    requires At(handle, m)
    modifies handle
    ensures At(handle, After(m, DrainOne))
  {
    DrainOnly(m, DrainOne);
    PassDrain(handle, m.drain);
  }

  method PassDrain(handle: StageHandle, d: CallbackDrain.State)
    requires handle.DrainValid() && handle.drain == d
    modifies handle`callbacks, handle`drainActive, handle`drain
    ensures handle.DrainValid() && handle.drain == CallbackDrain.Step(d, CallbackDrain.DrainOne)
  {
    if d.running > 0 {
      var ran, finished := handle.DrainOne();
    }
  }

  method PerformBeginDrain(handle: StageHandle, m: Models)
    requires At(handle, m)
    modifies handle
    ensures At(handle, After(m, BeginDrain))
  {
    handle.BeginDrain();
  }

  /** Any calls on a new handle leave it where the models say. */
  method Execute(calls: seq<Call>) returns (handle: StageHandle)
    ensures fresh(handle) && At(handle, AfterAll(calls))
  {
    handle := new StageHandle();
    var m := NEW;
    for k := 0 to |calls|
      invariant fresh(handle) && At(handle, m) && m == AfterAll(calls[..k])
    {
      assert calls[..k + 1][..k] == calls[..k] && calls[..k + 1][k] == calls[k];
      var c := calls[k];
      if c.Retain? || c.Release? || c.Record? {
        PerformWork(handle, m, c);
      } else if c.TakeErrors? {
        PerformTake(handle, m);
      } else if c.SetOwner? || c.RegisterTask? || c.TaskDone? {
        PerformTask(handle, m, c);
      } else if c.Cancel? || c.CancelScheduled? || c.CancelOwed? {
        PerformCancel(handle, m, c);
      } else if c.SetBody? {
        PerformSetBody(handle, m, c);
      } else {
        match c {
          case Enqueue(cb) => PerformEnqueue(handle, m, cb);
          case Submitted => PerformSubmitted(handle, m);
          case Withdraw => PerformWithdraw(handle, m);
          case BeginDrain => PerformBeginDrain(handle, m);
          case DrainOne => PerformDrainOne(handle, m);
        }
      }
      m := After(m, c);
    }
    assert calls[..|calls|] == calls;
  }

  /** Whatever the calls, each model has made a run of its own. */
  lemma {:induction false} CallsAreRuns(calls: seq<Call>)
    returns (es: seq<Settlement.Event>, fs: seq<CancelFence.Event>, gs: seq<CallbackDrain.Event>)
    ensures var m := AfterAll(calls);
            && m.settlement == Settlement.Run(Settlement.IDLE, es)
            && m.fence == CancelFence.Run(CancelFence.NEW, fs)
            && m.drain == CallbackDrain.Run(CallbackDrain.NEW, gs)
    decreases |calls|
  {
    if calls == [] {
      es, fs, gs := [], [], [];
    } else {
      var m, c := AfterAll(calls[..|calls| - 1]), calls[|calls| - 1];
      es, fs, gs := CallsAreRuns(calls[..|calls| - 1]);
      if SettlementEvent(c).Some? {
        Settlement.RunSnoc(Settlement.IDLE, es, SettlementEvent(c).value);
        es := es + [SettlementEvent(c).value];
      }
      if FenceEvent(m, c).Some? {
        CancelFence.RunSnoc(CancelFence.NEW, fs, FenceEvent(m, c).value);
        fs := fs + [FenceEvent(m, c).value];
      }
      if DrainEvent(c).Some? {
        CallbackDrain.RunSnoc(CallbackDrain.NEW, gs, DrainEvent(c).value);
        gs := gs + [DrainEvent(c).value];
      }
    }
  }
}
