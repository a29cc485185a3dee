/**
  `_Generation` and `_CarrierSlot` as the objects they are in the source, each
  critical section proved to be the corresponding event of the lane model.
 */
module CarrierSlots {
  import opened Common
  import Slots

  type Token = Slots.Token

  class Generation {
    const id: nat
    var state: Slots.GenState
    var reservations: int
    var live: bool
    var pending: seq<Token>
    ghost var ready: seq<Token>
    ghost var accepted: seq<Token>
    ghost var begun: seq<Token>
    ghost var running: set<Token>
    ghost var leases: set<Token>
    ghost var tasks: set<Token>
    ghost var signals: nat

    ghost function View(): Slots.Gen
      reads this
    {
      Slots.Gen(id, state, reservations, live, pending, ready, accepted, begun, running, leases, tasks, signals)
    }

    constructor (id: nat)
      ensures this.id == id && View() == Slots.NewGen(id)
    {
      this.id := id;
      state, reservations, live, pending := Slots.Queued, 0, false, [];
      ready, accepted, begun, running, leases, tasks, signals := [], [], [], {}, {}, {}, 0;
    }

    method AddLease(ghost tok: Token)
      modifies this
      ensures View() == Slots.Add(old(View()), Slots.Lease, tok)
    {
      reservations := reservations + 1;
      leases := leases + {tok};
    }

    method AddSubmission(submission: Token)
      modifies this
      ensures View() == Slots.Add(old(View()), Slots.Submission, submission)
    {
      reservations := reservations + 1;
      accepted := accepted + [submission];
      if live {
        ready := ready + [submission];
      } else {
        pending := pending + [submission];
      }
    }

    /** One holder less; `seal` asks for the seal event to be set on the loop. */
    method Drop() returns (seal: bool)
      modifies this
      ensures View() == Slots.Drop(old(View())) && seal == (live && reservations == 0)
    {
      reservations := reservations - 1;
      seal := false;
      if reservations == 0 {
        if Slots.Admitting(state) {
          state := Slots.Sealing;
        }
        if live {
          seal := true;
          signals := signals + 1;
        }
      }
    }
  }

  function IdOf(g: Generation?): Option<nat> {
    if g == null then None else Some(g.id)
  }

  datatype Refusal = NotOwned | AlreadySealing | CannotRetain | Underflow

  class CarrierSlot {
    var current: Generation?
    var next: Generation?
    /** The jobs of the control executor, by generation id. */
    var queue: seq<nat>
    ghost var top: nat
    ghost var used: set<Token>

    ghost predicate Valid()
      reads this, current, next
    {
      && (next != null ==> current != null && current.id != next.id && next.id <= top)
      && (current != null ==> current.id <= top)
    }

    ghost function View(): Slots.Slot
      reads this, current, next
    {
      Slots.Slot(
        if current == null then None else Some(current.View()),
        if next == null then None else Some(next.View()),
        queue, top, used)
    }

    /** Ids are unique, so a generation of another lane shares none with this one. */
    ghost predicate Known(g: Generation)
      reads this, current, next
    {
      g == current || g == next || Slots.GenOf(View(), g.id).None?
    }

    constructor ()
      ensures Valid() && View() == Slots.EMPTY
    {
      current, next, queue, top, used := null, null, [], 0, {};
    }

    /** `_create_generation_locked`, with the executor accepting the job. */
    method CreateGeneration(asNext: bool, newId: nat) returns (g: Generation)
      requires if asNext then current != null && next == null else current == null
      modifies this
      ensures g.View() == Slots.NewGen(newId) && fresh(g)
      ensures if asNext then next == g && current == old(current) else current == g && next == old(next)
      ensures queue == old(queue) + [newId] && top == newId && used == old(used)
    {
      g := new Generation(newId);
      if asNext {
        next := g;
      } else {
        current := g;
      }
      queue := queue + [newId];
      top := newId;
    }

    /** The choice made by `_reserve_locked`. */
    method Pick(preferred: Generation?, newId: nat) returns (r: Result<Generation, Refusal>)
      requires Valid() && top < newId && (preferred != null ==> Known(preferred))
      modifies this
      ensures Valid()
      ensures var p := Slots.Pick(old(View()), IdOf(preferred), newId);
              if p.None? then r.Err? && View() == old(View())
              else r.Ok? && (r.value == current || r.value == next) && (View(), r.value.View()) == p.value
      ensures current == old(current) || fresh(current)
      ensures next == old(next) || fresh(next)
    {
      if preferred != null {
        if preferred != current && preferred != next {
          return Err(NotOwned);
        }
        if !Slots.Admitting(preferred.state) {
          return Err(AlreadySealing);
        }
        return Ok(preferred);
      }
      var g: Generation;
      if current == null {
        g := CreateGeneration(false, newId);
      } else if Slots.Admitting(current.state) {
        g := current;
      } else if next != null {
        g := next;
      } else {
        g := CreateGeneration(true, newId);
      }
      r := Ok(g);
    }

    /** The holder `tok` joins a generation of this lane. */
    method Join(g: Generation, kind: Slots.Kind, tok: Token)
      requires Valid() && (g == current || g == next)
      modifies this`used, g
      ensures Valid()
      ensures View() == Slots.Update(old(View()), Slots.Add(old(g.View()), kind, tok)).(used := old(used) + {tok})
    {
      match kind {
        case Lease => g.AddLease(tok);
        case Submission => g.AddSubmission(tok);
      }
      used := used + {tok};
    }

    method AcquireLease(preferred: Generation?, newId: nat, tok: Token) returns (r: Result<Generation, Refusal>)
      requires Valid() && top < newId && tok !in used && (preferred != null ==> Known(preferred))
      modifies this, current, next
      ensures Valid() && View() == Slots.ReserveIn(old(View()), IdOf(preferred), newId, Slots.Lease, tok)
      ensures var id := Slots.Granted(old(View()), IdOf(preferred), newId);
              if id.None? then r.Err? else r.Ok? && r.value.id == id.value && (r.value == current || r.value == next)
      ensures current == old(current) || fresh(current)
      ensures next == old(next) || fresh(next)
    {
      r := Pick(preferred, newId);
      if r.Ok? {
        Join(r.value, Slots.Lease, tok);
      }
    }

    /** `submit`: the submission waits for the loop, or is handed to it. */
    method Submit(preferred: Generation?, newId: nat, submission: Token) returns (r: Result<nat, Refusal>)
      requires Valid() && top < newId && submission !in used && (preferred != null ==> Known(preferred))
      modifies this, current, next
      ensures Valid() && View() == Slots.ReserveIn(old(View()), IdOf(preferred), newId, Slots.Submission, submission)
      ensures var id := Slots.Granted(old(View()), IdOf(preferred), newId);
              if id.None? then r.Err? else r == Ok(id.value)
      ensures current == old(current) || fresh(current)
      ensures next == old(next) || fresh(next)
    {
      var p := Pick(preferred, newId);
      if p.Err? {
        return Err(p.error);
      }
      Join(p.value, Slots.Submission, submission);
      r := Ok(p.value.id);
    }

    /** `_retain_reservation`, for a descendant task. */
    method RetainReservation(g: Generation, ghost tok: Token) returns (r: Result<(), Refusal>)
      requires Valid() && (g == current || g == next) && tok !in used
      modifies this`used, g
      ensures Valid() && View() == Slots.Step(old(View()), Slots.Retain(g.id, tok))
      ensures r.Ok? <==> old(g.state) == Slots.Starting || old(g.state) == Slots.Open
    {
      if g.state != Slots.Starting && g.state != Slots.Open {
        return Err(CannotRetain);
      }
      g.reservations := g.reservations + 1;
      g.tasks := g.tasks + {tok};
      used := used + {tok};
      r := Ok(());
    }

    /** `_release_reservation`, called by the holder that `e` names.  `seal` says
        that the seal event is to be set on the generation's loop. */
    method ReleaseReservation(g: Generation, ghost e: Slots.Event) returns (r: Result<bool, Refusal>)
      requires Valid() && (g == current || g == next)
      requires (e.ReleaseLease? || e.FinishSubmission? || e.TaskDone?) && e.id == g.id && Slots.Allowed(g.View(), e)
      modifies g
      ensures Valid()
      ensures if old(g.reservations) <= 0 then r == Err(Underflow) && View() == old(View())
              else View() == Slots.Step(old(View()), e) && r == Ok(g.live && g.reservations == 0)
    {
      if g.reservations <= 0 {
        return Err(Underflow);
      }
      match e {
        case ReleaseLease(_, tok) => g.leases := g.leases - {tok};
        case FinishSubmission(_, tok) => g.running := g.running - {tok};
        case TaskDone(_, tok) => g.tasks := g.tasks - {tok};
      }
      var seal := g.Drop();
      r := Ok(seal);
    }

    /** The first critical section of `_run_generation`: the submissions to be
        started on the new loop, and whether to seal it at once. */
    method StartGeneration(g: Generation) returns (submissions: seq<Token>, seal: bool)
      requires Valid() && queue != [] && g.id == queue[0] && (g == current || g == next) && !g.live
      modifies g
      ensures Valid() && View() == Slots.Step(old(View()), Slots.Start)
      ensures submissions == old(g.pending) && seal == (g.reservations == 0)
    {
      g.live := true;
      if g.reservations == 0 {
        g.state := Slots.Sealing;
        g.signals := g.signals + 1;
      } else {
        g.state := Slots.Open;
      }
      submissions := g.pending;
      g.ready := g.ready + g.pending;
      g.pending := [];
      seal := g.reservations == 0;
    }

    /** The loop starts the oldest submission handed to it. */
    ghost method BeginSubmission(g: Generation)
      requires Valid() && (g == current || g == next) && g.ready != []
      modifies g`ready, g`begun, g`running
      ensures Valid() && View() == Slots.Step(old(View()), Slots.Begin(g.id))
    {
      g.begun, g.running, g.ready := g.begun + [g.ready[0]], g.running + {g.ready[0]}, g.ready[1..];
    }

    method DrainGeneration(g: Generation)
      requires Valid() && queue != [] && g.id == queue[0] && (g == current || g == next)
      requires Slots.Allowed(g.View(), Slots.Drain)
      modifies g
      ensures Valid() && View() == Slots.Step(old(View()), Slots.Drain)
    {
      g.state := Slots.Draining;
    }

    /** The last critical section of `_run_generation`; `idle` says that the lane
        is left without generations. */
    method CloseGeneration(g: Generation) returns (idle: bool)
      requires Valid() && queue != [] && g.id == queue[0] && g == current && g.state == Slots.Draining
      modifies this, g
      ensures Valid() && View() == Slots.Step(old(View()), Slots.Close)
      ensures idle <==> current == null
      ensures current == old(next) && next == null
      ensures g.state == Slots.Closed && !g.live
    {
      g.live := false;
      g.state := Slots.Closed;
      if current == g {
        current := next;
        next := null;
      }
      queue := queue[1..];
      idle := current == null && next == null;
    }
  }
}
