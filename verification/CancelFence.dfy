/**
  Cancellation of a handle: which tasks a request reaches, for every interleaving
  of `cancel`, the owner's start, task registration and task completion.  The
  decision under the lock and the delivery of the request are separate events.
 */
module CancelFence {
  import opened Common

  /** `body` and `settlement` are all tasks ever registered in that phase (the
      owner task is in `body`), `done` those that have finished, `scheduled` the
      `_cancel_tasks` calls handed to the owner loop, `owed` the tasks whose
      registration answered that they must be cancelled, and `requested` the
      tasks that have received a request. */
  datatype State = State(
    owner: Option<nat>,
    bodyTasks: set<nat>,
    settlementTasks: set<nat>,
    bodyDone: bool,
    cancelRequested: bool,
    body: set<nat>,
    settlement: set<nat>,
    done: set<nat>,
    scheduled: seq<set<nat>>,
    owed: set<nat>,
    requested: set<nat>)

  datatype Event =
    | SetOwner(task: nat)
    | RegisterBody(task: nat)
    | RegisterSettlement(task: nat)
    | Done(task: nat)
    | BodyOutcome
    | Cancel
    | RunScheduled
    | CancelOwed(task: nat)

  const NEW := State(None, {}, {}, false, false, {}, {}, {}, [], {}, {})

  predicate Fresh(s: State, t: nat) {
    t !in s.body && t !in s.settlement && t !in s.done
  }

  /** `cancel` is refused once the body is done and no body task is left. */
  predicate Accepts(s: State) {
    !(s.bodyDone && s.bodyTasks == {})
  }

  function OwnerSet(s: State): set<nat> {
    if s.owner.Some? then {s.owner.value} else {}
  }

  function Step(s: State, e: Event): State {
    match e
    case SetOwner(t) =>
      if s.owner.Some? || !Fresh(s, t) then s
      else s.(owner := Some(t), body := s.body + {t}, owed := if s.cancelRequested then s.owed + {t} else s.owed)
    case RegisterBody(t) =>
      if s.owner.None? || !Fresh(s, t) then s
      else s.(bodyTasks := s.bodyTasks + {t}, body := s.body + {t}, owed := if s.cancelRequested then s.owed + {t} else s.owed)
    case RegisterSettlement(t) =>
      if !Fresh(s, t) then s else s.(settlementTasks := s.settlementTasks + {t}, settlement := s.settlement + {t})
    case Done(t) =>
      s.(bodyTasks := s.bodyTasks - {t}, settlementTasks := s.settlementTasks - {t}, done := s.done + {t})
    case BodyOutcome => s.(bodyDone := true)
    case Cancel =>
      if !Accepts(s) then s
      else s.(cancelRequested := true, scheduled := if s.owner.Some? then s.scheduled + [OwnerSet(s) + s.bodyTasks] else s.scheduled)
    case RunScheduled =>
      if s.scheduled == [] then s
      else s.(scheduled := s.scheduled[1..], requested := s.requested + (s.scheduled[0] - s.done))
    case CancelOwed(t) =>
      if t !in s.owed then s else s.(owed := s.owed - {t}, requested := s.requested + {t})
  }

  function Run(s: State, es: seq<Event>): State
    decreases |es|
  {
    if es == [] then s else Run(Step(s, es[0]), es[1..])
  }

  lemma {:induction false} RunSnoc(s: State, es: seq<Event>, e: Event)
    ensures Run(s, es + [e]) == Step(Run(s, es), e)
    decreases |es|
  {
    if es == [] {
      assert es + [e] == [e] && [e][1..] == [];
    } else {
      assert (es + [e])[0] == es[0] && (es + [e])[1..] == es[1..] + [e];
      RunSnoc(Step(s, es[0]), es[1..], e);
    }
  }

  /** Tasks named in a call that has not run yet. */
  ghost predicate Named(scheduled: seq<set<nat>>, t: nat) {
    exists i :: 0 <= i < |scheduled| && t in scheduled[i]
  }

  /** A request has been made of `t`, or is on its way. */
  ghost predicate Reached(s: State, t: nat) {
    t in s.requested || t in s.owed || Named(s.scheduled, t)
  }

  ghost predicate Inv(s: State) {
    && s.body !! s.settlement
    && s.bodyTasks == s.body - OwnerSet(s) - s.done
    && (s.owner.Some? ==> s.owner.value in s.body)
    && (s.owner.None? ==> s.body <= s.done && s.body == {})
    && (s.cancelRequested ==> forall t <- s.body - s.done :: Reached(s, t))
    && (!s.cancelRequested ==> s.requested == {} && s.owed == {} && s.scheduled == [])
    && (forall t :: Reached(s, t) ==> t in s.body)
  }

  lemma ScheduledStep(s: State, t: nat)
    requires s.scheduled != []
    ensures Named(s.scheduled, t) <==> t in s.scheduled[0] || Named(s.scheduled[1..], t)
  {
    if t !in s.scheduled[0] && Named(s.scheduled, t) {
      var i :| 0 <= i < |s.scheduled| && t in s.scheduled[i];
      assert s.scheduled[1..][i - 1] == s.scheduled[i];
    }
    if j :| 0 <= j < |s.scheduled| - 1 && t in s.scheduled[1..][j] {
      assert s.scheduled[j + 1] == s.scheduled[1..][j];
    }
  }

  lemma CancelStep(scheduled: seq<set<nat>>, c: set<nat>, t: nat)
    ensures Named(scheduled + [c], t) <==> Named(scheduled, t) || t in c
  {
    assert (scheduled + [c])[|scheduled|] == c;
    if i :| 0 <= i < |scheduled| && t in scheduled[i] {
      assert (scheduled + [c])[i] == scheduled[i];
    }
  }

  lemma StepKeepsInv(s: State, e: Event)
    requires Inv(s)
    ensures Inv(Step(s, e))
  {
    match e
    case Cancel =>
      if Accepts(s) && s.owner.Some? {
        forall t
          ensures Named(Step(s, e).scheduled, t) <==> Named(s.scheduled, t) || t in OwnerSet(s) + s.bodyTasks
        {
          CancelStep(s.scheduled, OwnerSet(s) + s.bodyTasks, t);
        }
      }
    case RunScheduled =>
      if s.scheduled != [] {
        forall t
          ensures Named(s.scheduled, t) <==> t in s.scheduled[0] || Named(s.scheduled[1..], t)
        {
          ScheduledStep(s, t);
        }
      }
    case _ =>
      var s' := Step(s, e);
      assert s'.scheduled == s.scheduled;
      assert forall t :: Reached(s, t) ==> Reached(s', t);
      assert forall t <- s'.body - s'.done :: t in s.body - s.done || t in s'.owed || !s'.cancelRequested;
  }

  lemma {:induction false} RunKeepsInv(s: State, es: seq<Event>)
    requires Inv(s)
    ensures Inv(Run(s, es))
    decreases |es|
  {
    if es != [] {
      StepKeepsInv(s, es[0]);
      RunKeepsInv(Step(s, es[0]), es[1..]);
    }
  }

  /** In every run: after an accepted cancel every body-phase task still running,
      whether it was there or came later, has been asked to stop or will be; no
      settlement-phase task ever is, and without a cancel nobody is. */
  lemma FenceInEveryRun(es: seq<Event>, t: nat)
    ensures var s := Run(NEW, es);
            && (s.cancelRequested && t in s.body && t !in s.done ==> Reached(s, t))
            && (s.cancelRequested && t in s.body && t !in s.done && s.scheduled == [] && s.owed == {} ==> t in s.requested)
            && (t in s.settlement ==> !Reached(s, t))
            && (!s.cancelRequested ==> !Reached(s, t))
  {
    RunKeepsInv(NEW, es);
    var s := Run(NEW, es);
    if s.cancelRequested && t in s.body && t !in s.done {
      assert t in s.body - s.done;
    }
  }

  // --------------------------------------------------- what each event does

  /** In every run a cancel is accepted unless the body is done and no other body task
      is left; the call handed to the owner loop names the owner and all those tasks. */
  lemma CancelAccepted(es: seq<Event>)
    ensures var s := Run(NEW, es);
            var t := Step(s, Cancel);
            var left := exists b <- s.body :: b !in s.done && s.owner != Some(b);
            && (t.cancelRequested <==> s.cancelRequested || !s.bodyDone || left)
            && (if (!s.bodyDone || left) && s.owner.Some? then
                  && |t.scheduled| == |s.scheduled| + 1 && s.scheduled == t.scheduled[..|s.scheduled|]
                  && forall b :: b in t.scheduled[|s.scheduled|] <==> b in s.body && (b !in s.done || s.owner == Some(b))
                else t.scheduled == s.scheduled)
  {
    RunKeepsInv(NEW, es);
    var s := Run(NEW, es);
    TasksLeft(s);
  }

  lemma TasksLeft(s: State)
    requires Inv(s)
    ensures s.bodyTasks != {} <==> exists b <- s.body :: b !in s.done && s.owner != Some(b)
    ensures forall b :: b in OwnerSet(s) + s.bodyTasks <==> b in s.body && (b !in s.done || s.owner == Some(b))
  {
    if s.bodyTasks != {} {
      var b :| b in s.bodyTasks;
      assert b in s.body && b !in s.done && s.owner != Some(b);
    }
    if b :| b in s.body && b !in s.done && s.owner != Some(b) {
      assert b in s.bodyTasks;
    }
  }

  /** A new task is on record in its phase; a body task after a cancel is to be
      cancelled by whoever registered it. */
  lemma RegistrationDoes(s: State, t: nat)
    requires t !in s.body && t !in s.settlement && t !in s.done
    ensures s.owner.None? ==>
              Step(s, SetOwner(t)) == s.(owner := Some(t), body := s.body + {t}, owed := s.owed + if s.cancelRequested then {t} else {})
    ensures s.owner.Some? ==>
              Step(s, RegisterBody(t)) ==
              s.(bodyTasks := s.bodyTasks + {t}, body := s.body + {t}, owed := s.owed + if s.cancelRequested then {t} else {})
    ensures Step(s, RegisterSettlement(t)) == s.(settlementTasks := s.settlementTasks + {t}, settlement := s.settlement + {t})
  {
  }

  /** Completion, the outcome, and the delivery of requests: a scheduled call reaches
      the tasks it names that are not done, an owed request its task. */
  lemma DeliveryDoes(s: State, t: nat)
    ensures Step(s, Done(t)) == s.(bodyTasks := s.bodyTasks - {t}, settlementTasks := s.settlementTasks - {t}, done := s.done + {t})
    ensures Step(s, BodyOutcome) == s.(bodyDone := true)
    ensures s.scheduled != [] ==>
              Step(s, RunScheduled) == s.(scheduled := s.scheduled[1..], requested := s.requested + (s.scheduled[0] - s.done))
    ensures t in s.owed ==> Step(s, CancelOwed(t)) == s.(owed := s.owed - {t}, requested := s.requested + {t})
  {
  }
}
