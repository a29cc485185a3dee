/** Any critical sections of a lane, in any order, are a run of its model. */
module LaneRuns {
  import opened Common
  import Slots
  import opened CarrierSlots

  ghost predicate At(slot: CarrierSlot, s: Slots.Slot)
    reads slot, slot.current, slot.next
  {
    slot.Valid() && slot.View() == s && Slots.Inv(s)
  }

  /** The generation with this id, on the lane or not. */
  method Find(slot: CarrierSlot, id: nat) returns (g: Generation)
    requires slot.Valid()
    ensures g.id == id && slot.Known(g) && (fresh(g) || g == slot.current || g == slot.next)
    ensures Slots.GenOf(slot.View(), id).Some? ==> (g == slot.current || g == slot.next) && Slots.GenOf(slot.View(), id).value == g.View()
  {
    if slot.current != null && slot.current.id == id {
      return slot.current;
    }
    if slot.next != null && slot.next.id == id {
      return slot.next;
    }
    g := new Generation(id);
  }

  method PerformReserve(slot: CarrierSlot, ghost s: Slots.Slot, preferred: Option<nat>, newId: nat, kind: Slots.Kind, tok: nat)
    requires slot.Valid() && slot.View() == s && Slots.Enabled(s, Slots.Reserve(preferred, newId, kind, tok))
    modifies slot, slot.current, slot.next
    ensures slot.Valid() && slot.View() == Slots.Step(s, Slots.Reserve(preferred, newId, kind, tok))
    ensures slot.current == old(slot.current) || fresh(slot.current)
    ensures slot.next == old(slot.next) || fresh(slot.next)
  {
    var g: Generation? := null;
    if preferred.Some? {
      g := Find(slot, preferred.value);
    }
    match kind {
      case Lease => var r := slot.AcquireLease(g, newId, tok);
      case Submission => var r := slot.Submit(g, newId, tok);
    }
  }

  /** A holder that may leave is counted. */
  lemma HolderCounts(g: Slots.Gen, used: set<Slots.Token>, e: Slots.Event)
    requires Slots.GenInv(g, used) && Slots.Allowed(g, e) && (e.ReleaseLease? || e.FinishSubmission? || e.TaskDone?)
    ensures g.reservations > 0
  {
    assert g.leases != {} || g.running != {} || g.tasks != {};
  }

  predicate Leaves(e: Slots.Event) {
    e.ReleaseLease? || e.FinishSubmission? || e.TaskDone?
  }

  lemma TargetIsHere(s: Slots.Slot, e: Slots.Event)
    requires Slots.Inv(s) && Slots.Enabled(s, e) && !e.Reserve?
    ensures var g := Slots.Target(s, e).value;
            Slots.GenOf(s, g.id) == Some(g) && Slots.GenInv(g, s.used) && (e.Close? || e.Start? || e.Drain? ==> Some(g) == s.current)
  {
  }

  method PerformLeave(slot: CarrierSlot, s: Slots.Slot, e: Slots.Event)
    requires At(slot, s) && Slots.Enabled(s, e) && Leaves(e)
    modifies slot, slot.current, slot.next
    ensures slot.Valid() && slot.View() == Slots.Step(s, e)
    ensures slot.current == old(slot.current) && slot.next == old(slot.next)
  {
    TargetIsHere(s, e);
    var g := Find(slot, Slots.Target(s, e).value.id);
    HolderCounts(g.View(), s.used, e);
    var r := slot.ReleaseReservation(g, e);
  }

  method PerformLoop(slot: CarrierSlot, s: Slots.Slot, e: Slots.Event)
    requires At(slot, s) && Slots.Enabled(s, e) && (e.Start? || e.Drain?)
    modifies slot, slot.current, slot.next
    ensures slot.Valid() && slot.View() == Slots.Step(s, e)
    ensures slot.current == old(slot.current) && slot.next == old(slot.next)
  {
    TargetIsHere(s, e);
    var g := Find(slot, Slots.Target(s, e).value.id);
    match e {
      case Start => var submissions, seal := slot.StartGeneration(g);
      case Drain => slot.DrainGeneration(g);
    }
  }

  method PerformWork(slot: CarrierSlot, s: Slots.Slot, e: Slots.Event)
    requires At(slot, s) && Slots.Enabled(s, e) && (e.Retain? || e.Begin?)
    modifies slot, slot.current, slot.next
    ensures slot.Valid() && slot.View() == Slots.Step(s, e)
    ensures slot.current == old(slot.current) && slot.next == old(slot.next)
  {
    TargetIsHere(s, e);
    var g := Find(slot, Slots.Target(s, e).value.id);
    match e {
      case Retain(_, tok) => var r := slot.RetainReservation(g, tok);
      case Begin(_) => slot.BeginSubmission(g);
    }
  }

  method PerformClose(slot: CarrierSlot, s: Slots.Slot)
    requires At(slot, s) && Slots.Enabled(s, Slots.Close)
    modifies slot, slot.current, slot.next
    ensures slot.Valid() && slot.View() == Slots.Step(s, Slots.Close)
    ensures slot.current == old(slot.next) && slot.next == null
  {
    TargetIsHere(s, Slots.Close);
    var idle := slot.CloseGeneration(slot.current);
  }

  method Perform(slot: CarrierSlot, s: Slots.Slot, e: Slots.Event)
    requires At(slot, s)
    modifies slot, slot.current, slot.next
    ensures slot.Valid() && slot.View() == Slots.Step(s, e)
    ensures slot.current == old(slot.current) || slot.current == old(slot.next) || fresh(slot.current)
    ensures slot.next == old(slot.next) || slot.next == null || fresh(slot.next)
  {
    if Slots.Enabled(s, e) {
      if e.Reserve? {
        PerformReserve(slot, s, e.preferred, e.newId, e.kind, e.tok);
      } else if Leaves(e) {
        PerformLeave(slot, s, e);
      } else if e.Close? {
        PerformClose(slot, s);
      } else if e.Start? || e.Drain? {
        PerformLoop(slot, s, e);
      } else {
        PerformWork(slot, s, e);
      }
    }
  }

  /** Any events on a new lane leave its objects where the model says. */
  method Execute(es: seq<Slots.Event>) returns (slot: CarrierSlot)
    ensures fresh(slot) && slot.Valid() && slot.View() == Slots.Run(es)
  {
    slot := new CarrierSlot();
    var s := Slots.EMPTY;
    for k := 0 to |es|
      invariant fresh(slot) && (slot.current != null ==> fresh(slot.current)) && (slot.next != null ==> fresh(slot.next))
      invariant At(slot, s) && s == Slots.Run(es[..k])
    {
      var e := es[k];
      assert es[..k + 1] == es[..k] + [e];
      Slots.RunSnoc(es[..k], e);
      Slots.StepKeepsInv(s, e);
      Perform(slot, s, e);
      s := Slots.Step(s, e);
    }
    assert es[..|es|] == es;
  }
}
