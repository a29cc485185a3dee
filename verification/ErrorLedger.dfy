/**
  Settlement errors on their way from a handle to its Stage.  Taking them off the
  handle and adding them to the Stage's inventory are two critical sections under
  two locks.  A unit of work, and the report that its release may owe, run on one
  worker (the thread of a lane or of a caller's loop), which does nothing else in
  between; reports on two workers can overtake each other.
 */
module ErrorLedger {
  import opened Common

  /** Errors taken off the handle, and the worker that is about to add them. */
  datatype Batch = Batch(worker: nat, errors: seq<nat>)

  /** Errors are named by object identity.  `units` are the workers of the pending
      units of work, `owner` says that the body's runner still holds its own.  `due`
      are the workers that released the last unit and have not taken the errors yet,
      `inFlight` the batches taken and not yet added, in the order of taking.  The
      Stage is bound to the worker `home`; it cannot be bound anew while the handle
      is `active`, and a handle made for a caller's loop has no other (`carrier`). */
  datatype State = State(
    errors: seq<nat>,
    cursor: nat,
    completed: bool,
    bodyError: Option<nat>,
    units: multiset<nat>,
    owner: bool,
    due: set<nat>,
    inFlight: seq<Batch>,
    inventory: seq<nat>,
    carrier: bool,
    active: bool,
    home: nat)

  /** `Spawn` is a descendant of work on the same worker, `Late` a callback on a
      completed handle, submitted to the worker the Stage is bound to by then. */
  datatype Event =
    | Record(worker: nat, error: nat)
    | SetBody(outcome: Option<nat>)
    | Spawn(worker: nat)
    | Late(worker: nat)
    | Release(worker: nat)
    | OwnerDone
    | Take(worker: nat)
    | Deliver(batch: nat)

  /** A handle whose body has just been submitted. */
  function Submitted(carrier: bool, home: nat): State {
    State([], 0, false, None, multiset{home}, true, {}, [], [], carrier, true, home)
  }

  /** `_take_unreported_stage_errors` leaves the body's own error out. */
  function Foreign(errors: seq<nat>, bodyError: Option<nat>): seq<nat> {
    if errors == [] then []
    else
      var rest := Foreign(errors[..|errors| - 1], bodyError);
      if bodyError == Some(errors[|errors| - 1]) then rest else rest + [errors[|errors| - 1]]
  }

  function Untaken(s: State): seq<nat> {
    if s.cursor <= |s.errors| then Foreign(s.errors[s.cursor..], s.bodyError) else []
  }

  /** What the batches carry, in order. */
  function Carried(batches: seq<Batch>): seq<nat> {
    if batches == [] then [] else Carried(batches[..|batches| - 1]) + batches[|batches| - 1].errors
  }

  predicate Reporting(s: State, w: nat) {
    w in s.due || exists b <- s.inFlight :: b.worker == w
  }

  /** Work of this handle can take a step on `w`. */
  predicate Runs(s: State, w: nat) {
    w in s.units && !Reporting(s, w)
  }

  predicate AdmitsLate(s: State, w: nat) {
    s.completed && (s.active || !s.carrier ==> w == s.home)
  }

  function Released(s: State, w: nat): State {
    var units := s.units - multiset{w};
    s.(units := units, due := if units == multiset{} then s.due + {w} else s.due)
  }

  function Taken(s: State, w: nat): State {
    s.(due := s.due - {w}, inFlight := s.inFlight + [Batch(w, Untaken(s))], cursor := |s.errors|)
  }

  function Delivered(s: State, i: nat): State
    requires i < |s.inFlight|
  {
    s.(inventory := s.inventory + s.inFlight[i].errors, inFlight := s.inFlight[..i] + s.inFlight[i + 1..], active := false)
  }

  function Step(s: State, e: Event): State {
    match e
    case Record(w, err) => if Runs(s, w) then s.(errors := s.errors + [err]) else s
    case SetBody(err) => if s.owner && !s.completed then s.(completed := true, bodyError := err) else s
    case Spawn(w) => if Runs(s, w) then s.(units := s.units + multiset{w}) else s
    case Late(w) => if AdmitsLate(s, w) then s.(units := s.units + multiset{w}, active := true, home := w) else s
    case Release(w) => if Runs(s, w) && (s.owner && w == s.home ==> s.units[w] > 1) then Released(s, w) else s
    case OwnerDone => if s.owner && s.completed && Runs(s, s.home) then Released(s.(owner := false), s.home) else s
    case Take(w) => if w in s.due then Taken(s, w) else s
    case Deliver(i) => if i < |s.inFlight| then Delivered(s, i) else s
  }

  function Run(s: State, es: seq<Event>): State
    decreases |es|
  {
    if es == [] then s else Run(Step(s, es[0]), es[1..])
  }

  // --------------------------------------------------------- sequence lemmas

  lemma {:induction false} ForeignConcat(a: seq<nat>, b: seq<nat>, err: Option<nat>)
    ensures Foreign(a + b, err) == Foreign(a, err) + Foreign(b, err)
    decreases |b|
  {
    if b == [] {
      assert a + b == a;
    } else {
      var n := |b| - 1;
      assert (a + b)[..|a + b| - 1] == a + b[..n] && (a + b)[|a + b| - 1] == b[n];
      ForeignConcat(a, b[..n], err);
    }
  }

  /** Of every error but the body's, as many as were given. */
  lemma {:induction false} ForeignCount(errors: seq<nat>, err: Option<nat>, x: nat)
    ensures multiset(Foreign(errors, err))[x] == if err == Some(x) then 0 else multiset(errors)[x]
  {
    if errors != [] {
      var n := |errors| - 1;
      ForeignCount(errors[..n], err, x);
      assert errors == errors[..n] + [errors[n]];
      assert multiset(errors) == multiset(errors[..n]) + multiset{errors[n]};
    }
  }

  lemma {:induction false} CarriedConcat(a: seq<Batch>, b: seq<Batch>)
    ensures Carried(a + b) == Carried(a) + Carried(b)
    decreases |b|
  {
    if b == [] {
      assert a + b == a;
    } else {
      var n := |b| - 1;
      assert (a + b)[..|a + b| - 1] == a + b[..n] && (a + b)[|a + b| - 1] == b[n];
      CarriedConcat(a, b[..n]);
    }
  }

  lemma CarriedOne(b: Batch)
    ensures Carried([b]) == b.errors
  {
    assert [b][..0] == [] && Carried([b]) == Carried([]) + b.errors;
  }

  lemma {:induction false} CarriedSplit(b: seq<Batch>, i: nat)
    requires i < |b|
    ensures Carried(b) == Carried(b[..i]) + (b[i].errors + Carried(b[i + 1..]))
    ensures Carried(b[..i] + b[i + 1..]) == Carried(b[..i]) + Carried(b[i + 1..])
  {
    var tail := [b[i]] + b[i + 1..];
    assert b == b[..i] + tail;
    CarriedConcat(b[..i], tail);
    CarriedConcat([b[i]], b[i + 1..]);
    CarriedOne(b[i]);
    CarriedConcat(b[..i], b[i + 1..]);
  }

  // ------------------------------------------------------------ invariant

  /** The reportable errors that have been taken off the handle. */
  function Reported(s: State): seq<nat>
    requires s.cursor <= |s.errors|
  {
    Foreign(s.errors[..s.cursor], s.bodyError)
  }

  /** A worker makes one report at a time. */
  ghost predicate Placed(due: set<nat>, inFlight: seq<Batch>) {
    && (forall b <- inFlight :: b.worker !in due)
    && (forall i, j :: 0 <= i < j < |inFlight| ==> inFlight[i].worker != inFlight[j].worker)
  }

  ghost predicate Life(s: State) {
    && s.cursor <= |s.errors| && Placed(s.due, s.inFlight)
    && (s.owner ==> s.home in s.units && s.active)
    && (!s.owner ==> s.completed)
    && (!s.completed ==> s.bodyError.None?)
    && (s.owner ==> s.due == {} && s.cursor == 0 && s.inFlight == [] && s.inventory == [])
    && (s.units == multiset{} && s.due == {} ==> s.cursor == |s.errors|)
  }

  ghost predicate Conserved(s: State) {
    Life(s) && multiset(s.inventory) + multiset(Carried(s.inFlight)) == multiset(Reported(s))
  }

  lemma {:induction false} TakeAdds(s: State, w: nat)
    requires s.cursor <= |s.errors|
    ensures var t := Taken(s, w);
            Reported(t) == Reported(s) + Untaken(s) && Carried(t.inFlight) == Carried(s.inFlight) + Untaken(s)
  {
    assert s.errors == s.errors[..s.cursor] + s.errors[s.cursor..] == s.errors[..|s.errors|];
    ForeignConcat(s.errors[..s.cursor], s.errors[s.cursor..], s.bodyError);
    assert (s.inFlight + [Batch(w, Untaken(s))])[..|s.inFlight|] == s.inFlight;
  }

  lemma {:induction false} ReportedKept(s: State, e: Event)
    requires Life(s) && !e.Take?
    ensures Step(s, e).cursor == s.cursor <= |Step(s, e).errors| && Reported(Step(s, e)) == Reported(s)
  {
    var t := Step(s, e);
    assert t.errors[..s.cursor] == s.errors[..s.cursor];
    assert e.SetBody? && t != s ==> s.errors[..s.cursor] == [];
  }

  lemma {:induction false} ReleaseKeepsLife(s: State, w: nat)
    requires Life(s) && !Reporting(s, w) && (s.owner && w == s.home ==> s.units[w] > 1)
    ensures Life(Released(s, w))
  {
  }

  lemma {:induction false} OwnerKeepsLife(s: State)
    requires Life(s) && s.owner && s.completed
    ensures Life(Released(s.(owner := false), s.home))
  {
  }

  lemma {:induction false} TakeKeepsLife(s: State, w: nat)
    requires Life(s) && w in s.due
    ensures Life(Taken(s, w))
  {
  }

  lemma {:induction false} DeliverKeepsLife(s: State, i: nat)
    requires Life(s) && i < |s.inFlight|
    ensures Life(Delivered(s, i))
  {
  }

  lemma {:induction false} StepKeepsLife(s: State, e: Event)
    requires Life(s)
    ensures Life(Step(s, e))
  {
    match e
    case Release(w) => if Runs(s, w) && (s.owner && w == s.home ==> s.units[w] > 1) { ReleaseKeepsLife(s, w); }
    case OwnerDone => if s.owner && s.completed { OwnerKeepsLife(s); }
    case Take(w) => if w in s.due { TakeKeepsLife(s, w); }
    case Deliver(i) => if i < |s.inFlight| { DeliverKeepsLife(s, i); }
    case Spawn(w) => assert w in s.units + multiset{w};
    case Late(w) => assert w in s.units + multiset{w};
    case _ =>
  }

  lemma {:induction false} DeliverConserves(s: State, i: nat)
    requires i < |s.inFlight|
    ensures var t := Delivered(s, i);
            multiset(t.inventory) + multiset(Carried(t.inFlight)) == multiset(s.inventory) + multiset(Carried(s.inFlight))
  {
    CarriedSplit(s.inFlight, i);
  }

  lemma {:induction false} TakeConserves(s: State, w: nat)
    requires Conserved(s) && w in s.due
    ensures Conserved(Taken(s, w))
  {
    TakeKeepsLife(s, w);
    TakeAdds(s, w);
  }

  lemma {:induction false} OthersLeave(s: State, e: Event)
    requires !e.Take? && !e.Deliver?
    ensures Step(s, e).inventory == s.inventory && Step(s, e).inFlight == s.inFlight
  {
  }

  lemma {:induction false} StepConserves(s: State, e: Event)
    requires Conserved(s)
    ensures Conserved(Step(s, e))
  {
    if e.Take? {
      if e.worker in s.due { TakeConserves(s, e.worker); }
    } else {
      StepKeepsLife(s, e);
      ReportedKept(s, e);
      if !e.Deliver? {
        OthersLeave(s, e);
      } else if e.batch < |s.inFlight| {
        DeliverConserves(s, e.batch);
      }
    }
  }

  lemma {:induction false} RunConserves(s: State, es: seq<Event>)
    requires Conserved(s)
    ensures Conserved(Run(s, es))
    decreases |es|
  {
    if es != [] {
      StepConserves(s, es[0]);
      RunConserves(Step(s, es[0]), es[1..]);
    }
  }

  lemma {:induction false} ConservedCount(s: State, x: nat)
    requires Conserved(s)
    ensures multiset(s.inventory)[x] + multiset(Carried(s.inFlight))[x] == if s.bodyError == Some(x) then 0 else multiset(s.errors[..s.cursor])[x]
  {
    ForeignCount(s.errors[..s.cursor], s.bodyError, x);
    assert (multiset(s.inventory) + multiset(Carried(s.inFlight)))[x] == multiset(Reported(s))[x];
  }

  /** For every interleaving, the inventory and what is in flight together hold each
      error taken so far as often as it was recorded, and never the body's; and at rest
      the inventory holds all of them. */
  lemma {:induction false} ConservedInEveryRun(carrier: bool, home: nat, es: seq<Event>, x: nat)
    ensures var s := Run(Submitted(carrier, home), es);
            && s.cursor <= |s.errors|
            && multiset(s.inventory)[x] + multiset(Carried(s.inFlight))[x] ==
               (if s.bodyError == Some(x) then 0 else multiset(s.errors[..s.cursor])[x])
            && (s.units == multiset{} && s.due == {} && s.inFlight == [] ==>
                  multiset(s.inventory)[x] == if s.bodyError == Some(x) then 0 else multiset(s.errors)[x])
  {
    RunConserves(Submitted(carrier, home), es);
    var s := Run(Submitted(carrier, home), es);
    ConservedCount(s, x);
    assert s.errors[..|s.errors|] == s.errors;
  }

  /** Work of the handle takes a step only on a worker that has some and is not busy
      with a report: it records an error, spawns a unit, or ends one, and the last unit
      leaves a report due. */
  lemma {:induction false} WorkDoes(s: State, w: nat, x: nat)
    requires !s.owner
    ensures var free := w in s.units && w !in s.due && !exists b <- s.inFlight :: b.worker == w;
            && Step(s, Record(w, x)) == (if free then s.(errors := s.errors + [x]) else s)
            && Step(s, Spawn(w)) == (if free then s.(units := s.units + multiset{w}) else s)
            && Step(s, Release(w)) ==
               if free then s.(units := s.units - multiset{w}, due := if s.units - multiset{w} == multiset{} then s.due + {w} else s.due) else s
  {
  }

  /** A late callback needs a completed body and goes to the Stage's own worker, unless
      the handle is off the active ones and was made for the carrier. */
  lemma {:induction false} LateDoes(s: State, w: nat)
    ensures Step(s, Late(w)) ==
            if s.completed && (w == s.home || (!s.active && s.carrier)) then s.(units := s.units + multiset{w}, active := true, home := w) else s
  {
  }

  /** The two critical sections of a report: what was recorded since the last one, but
      the body's own, leaves the handle; it reaches the Stage, which lets the handle go. */
  lemma {:induction false} ReportDoes(s: State, w: nat, i: nat, x: nat)
    requires s.cursor <= |s.errors| && w in s.due && i < |s.inFlight|
    ensures var t := Step(s, Take(w));
            && t.cursor == |s.errors| && t.due == s.due - {w} && |t.inFlight| == |s.inFlight| + 1 && t.inFlight[..|s.inFlight|] == s.inFlight
            && t.inFlight[|s.inFlight|].worker == w && t.inventory == s.inventory
            && multiset(t.inFlight[|s.inFlight|].errors)[x] == if s.bodyError == Some(x) then 0 else multiset(s.errors[s.cursor..])[x]
    ensures var t := Step(s, Deliver(i));
            && t.inventory == s.inventory + s.inFlight[i].errors && t.inFlight == s.inFlight[..i] + s.inFlight[i + 1..] && !t.active
            && t.cursor == s.cursor && t.due == s.due && t.errors == s.errors
  {
    ForeignCount(s.errors[s.cursor..], s.bodyError, x);
  }

  // ------------------------------------------------------------------ order

  ghost predicate InOrder(s: State) {
    Life(s) && s.inventory + Carried(s.inFlight) == Reported(s)
  }

  /** A report on `w` that may still carry errors. */
  ghost predicate Loaded(due: set<nat>, inFlight: seq<Batch>, w: nat) {
    w in due || exists b <- inFlight :: b.worker == w && b.errors != []
  }

  /** New work after the last, away from the worker that still has to report. */
  ghost predicate Slips(s: State, e: Event) {
    e.Late? && AdmitsLate(s, e.worker) && s.units == multiset{} && exists w :: Loaded(s.due, s.inFlight, w) && w != e.worker
  }

  /** Reports come one at a time: only one may carry errors, and while it does, work
      remains only if some of it waits on the reporting worker. */
  ghost predicate OneReport(due: set<nat>, inFlight: seq<Batch>, units: multiset<nat>) {
    && (forall v, w :: Loaded(due, inFlight, v) && Loaded(due, inFlight, w) ==> v == w)
    && (forall w :: Loaded(due, inFlight, w) && units != multiset{} ==> w in units)
  }

  ghost predicate Clean(s: State) {
    InOrder(s) && OneReport(s.due, s.inFlight, s.units)
  }

  lemma {:induction false} CarriedEmpty(batches: seq<Batch>)
    requires forall b <- batches :: b.errors == []
    ensures Carried(batches) == []
  {
    if batches != [] {
      CarriedEmpty(batches[..|batches| - 1]);
    }
  }

  lemma {:induction false} TakeKeepsOrder(s: State, w: nat)
    requires InOrder(s) && w in s.due
    ensures InOrder(Taken(s, w))
  {
    TakeKeepsLife(s, w);
    TakeAdds(s, w);
    assert s.inventory + (Carried(s.inFlight) + Untaken(s)) == (s.inventory + Carried(s.inFlight)) + Untaken(s);
  }

  lemma {:induction false} TakeKeepsClean(s: State, w: nat)
    requires Clean(s) && w in s.due
    ensures Clean(Taken(s, w))
  {
    TakeKeepsOrder(s, w);
    var t := Taken(s, w);
    assert Loaded(s.due, s.inFlight, w);
    forall v | Loaded(t.due, t.inFlight, v)
      ensures Loaded(s.due, s.inFlight, v)
    {
      if v !in t.due {
        var b :| b in t.inFlight && b.worker == v && b.errors != [];
        assert b in s.inFlight || v == w;
      }
    }
  }

  /** A batch may overtake what is empty, and an empty batch anything. */
  lemma Overtakes(inventory: seq<nat>, pre: seq<nat>, batch: seq<nat>, post: seq<nat>)
    requires pre == [] || batch == []
    ensures inventory + (pre + (batch + post)) == (inventory + batch) + (pre + post)
  {
  }

  lemma {:induction false} DeliverKeepsOrder(s: State, i: nat)
    requires Clean(s) && i < |s.inFlight|
    ensures InOrder(Delivered(s, i))
  {
    var b := s.inFlight[i];
    DeliverKeepsLife(s, i);
    CarriedSplit(s.inFlight, i);
    var pre, post := Carried(s.inFlight[..i]), Carried(s.inFlight[i + 1..]);
    if b.errors != [] {
      assert Loaded(s.due, s.inFlight, b.worker);
      forall j | 0 <= j < i
        ensures s.inFlight[j].errors == []
      {
        assert s.inFlight[j].errors != [] ==> Loaded(s.due, s.inFlight, s.inFlight[j].worker);
      }
      CarriedEmpty(s.inFlight[..i]);
    }
    Overtakes(s.inventory, pre, b.errors, post);
  }

  lemma {:induction false} DeliverKeepsClean(s: State, i: nat)
    requires Clean(s) && i < |s.inFlight|
    ensures Clean(Delivered(s, i))
  {
    DeliverKeepsOrder(s, i);
    var t := Delivered(s, i);
    assert forall b <- t.inFlight :: b in s.inFlight;
    assert forall v :: Loaded(t.due, t.inFlight, v) ==> Loaded(s.due, s.inFlight, v);
  }

  /** The last unit is never released while a report may carry errors: some unit
      waits behind that report. */
  lemma {:induction false} ReleaseKeepsOne(s: State, w: nat)
    requires OneReport(s.due, s.inFlight, s.units) && Runs(s, w)
    ensures var t := Released(s, w); OneReport(t.due, t.inFlight, t.units)
  {
    forall v | Loaded(s.due, s.inFlight, v)
      ensures v in s.units - multiset{w}
    {
      assert v in s.units && v != w;
    }
    var t := Released(s, w);
    forall v | Loaded(t.due, t.inFlight, v)
      ensures Loaded(s.due, s.inFlight, v) || (v == w && t.units == multiset{})
    {
    }
  }

  lemma {:induction false} AddKeepsOne(s: State, w: nat)
    requires OneReport(s.due, s.inFlight, s.units)
    requires s.units == multiset{} ==> forall v :: Loaded(s.due, s.inFlight, v) ==> v == w
    ensures OneReport(s.due, s.inFlight, s.units + multiset{w})
  {
    assert forall v <- s.units :: v in s.units + multiset{w};
  }

  lemma {:induction false} WorkKeepsOne(s: State, e: Event)
    requires OneReport(s.due, s.inFlight, s.units) && !Slips(s, e) && !e.Take? && !e.Deliver?
    ensures var t := Step(s, e); OneReport(t.due, t.inFlight, t.units)
  {
    match e
    case Release(w) => if Runs(s, w) { ReleaseKeepsOne(s, w); }
    case OwnerDone => if Runs(s, s.home) { ReleaseKeepsOne(s.(owner := false), s.home); }
    case Spawn(w) => if Runs(s, w) { AddKeepsOne(s, w); }
    case Late(w) => if AdmitsLate(s, w) { AddKeepsOne(s, w); }
    case _ =>
  }

  lemma {:induction false} StepKeepsClean(s: State, e: Event)
    requires Clean(s) && !Slips(s, e)
    ensures Clean(Step(s, e))
  {
    if e.Take? {
      if e.worker in s.due { TakeKeepsClean(s, e.worker); }
    } else if e.Deliver? {
      if e.batch < |s.inFlight| { DeliverKeepsClean(s, e.batch); }
    } else {
      StepKeepsLife(s, e);
      ReportedKept(s, e);
      WorkKeepsOne(s, e);
    }
  }

  ghost predicate NoSlip(s: State, es: seq<Event>)
    decreases |es|
  {
    es != [] ==> !Slips(s, es[0]) && NoSlip(Step(s, es[0]), es[1..])
  }

  lemma {:induction false} OrderedWithoutSlips(s: State, es: seq<Event>)
    requires Clean(s) && NoSlip(s, es)
    ensures Clean(Run(s, es))
    decreases |es|
  {
    if es != [] {
      StepKeepsClean(s, es[0]);
      OrderedWithoutSlips(Step(s, es[0]), es[1..]);
    }
  }

  /** Without slips the inventory grows in the order of recording, and at rest it is
      the reportable errors, all of them and in order. */
  lemma {:induction false} InventoryInOrder(carrier: bool, home: nat, es: seq<Event>)
    requires NoSlip(Submitted(carrier, home), es)
    ensures var s := Run(Submitted(carrier, home), es);
            && s.cursor <= |s.errors| && s.inventory + Carried(s.inFlight) == Foreign(s.errors[..s.cursor], s.bodyError)
            && (s.units == multiset{} && s.due == {} && s.inFlight == [] ==> s.inventory == Foreign(s.errors, s.bodyError))
  {
    OrderedWithoutSlips(Submitted(carrier, home), es);
    var s := Run(Submitted(carrier, home), es);
    assert s.errors[..|s.errors|] == s.errors && s.inventory + [] == s.inventory;
  }

  // ---- on a caller's loop

  ghost predicate AllAt(home: nat, units: multiset<nat>, due: set<nat>, inFlight: seq<Batch>) {
    && (forall w <- units :: w == home) && (forall w <- due :: w == home)
    && (forall b <- inFlight :: b.worker == home)
  }

  ghost predicate AllAtHome(s: State) {
    !s.carrier && AllAt(s.home, s.units, s.due, s.inFlight)
  }

  lemma {:induction false} TakeStaysAt(s: State)
    requires AllAtHome(s)
    ensures AllAtHome(Taken(s, s.home))
  {
  }

  lemma {:induction false} DeliverStaysAt(s: State, i: nat)
    requires AllAtHome(s) && i < |s.inFlight|
    ensures AllAtHome(Delivered(s, i))
  {
    assert forall b <- Delivered(s, i).inFlight :: b in s.inFlight;
  }

  lemma {:induction false} ReleaseStaysAt(s: State)
    requires AllAtHome(s)
    ensures AllAtHome(Released(s, s.home))
  {
  }

  lemma {:induction false} AddStaysAt(s: State)
    requires AllAtHome(s)
    ensures AllAt(s.home, s.units + multiset{s.home}, s.due, s.inFlight)
  {
  }

  lemma {:induction false} StaysAtHome(s: State, e: Event)
    requires AllAtHome(s)
    ensures AllAtHome(Step(s, e))
  {
    match e
    case Spawn(w) => AddStaysAt(s);
    case Late(w) => AddStaysAt(s);
    case Release(w) => ReleaseStaysAt(s);
    case OwnerDone => ReleaseStaysAt(s.(owner := false));
    case Take(w) => TakeStaysAt(s);
    case Deliver(i) => if i < |s.inFlight| { DeliverStaysAt(s, i); }
    case _ =>
  }

  lemma {:induction false} HomeHasNoSlip(s: State, e: Event)
    requires AllAtHome(s)
    ensures !Slips(s, e)
  {
    assert forall w :: Loaded(s.due, s.inFlight, w) ==> w == s.home;
  }

  lemma {:induction false} AtHomeNeverSlips(s: State, es: seq<Event>)
    requires AllAtHome(s)
    ensures NoSlip(s, es)
    decreases |es|
  {
    if es != [] {
      StaysAtHome(s, es[0]);
      HomeHasNoSlip(s, es[0]);
      AtHomeNeverSlips(Step(s, es[0]), es[1..]);
    }
  }

  /** A handle made for a caller's loop always reports in order. */
  lemma {:induction false} CallerLoopInOrder(home: nat, es: seq<Event>)
    ensures InOrder(Run(Submitted(false, home), es))
  {
    AtHomeNeverSlips(Submitted(false, home), es);
    OrderedWithoutSlips(Submitted(false, home), es);
  }

  // ---- what a slip can lead to

  /** Work on `w` alone, while the report of `v` may carry errors. */
  ghost predicate Astray(s: State, v: nat, w: nat) {
    && InOrder(s) && !s.owner && v != w && Loaded(s.due, s.inFlight, v)
    && s.units == multiset{w} && s.due <= {v}
  }

  lemma {:induction false} SlipStrays(s: State, v: nat, w: nat)
    requires Clean(s) && AdmitsLate(s, w) && s.units == multiset{} && Loaded(s.due, s.inFlight, v) && v != w
    ensures Astray(Step(s, Late(w)), v, w)
    ensures forall b <- s.inFlight :: b.worker == w ==> b.errors == []
  {
    StepKeepsLife(s, Late(w));
    ReportedKept(s, Late(w));
    assert forall u <- s.due :: Loaded(s.due, s.inFlight, u);
    assert forall b <- s.inFlight :: b.errors != [] ==> Loaded(s.due, s.inFlight, b.worker);
  }

  lemma {:induction false} RunConcat(s: State, es: seq<Event>, fs: seq<Event>)
    ensures Run(s, es + fs) == Run(Run(s, es), fs)
    decreases |es|
  {
    if es == [] {
      assert es + fs == fs;
    } else {
      assert (es + fs)[0] == es[0] && (es + fs)[1..] == es[1..] + fs;
      RunConcat(Step(s, es[0]), es[1..], fs);
    }
  }

  ghost predicate NoLate(es: seq<Event>) {
    forall e <- es :: !e.Late?
  }

  lemma {:induction false} NoLateNoSlip(s: State, es: seq<Event>)
    requires NoLate(es)
    ensures NoSlip(s, es)
    decreases |es|
  {
    if es != [] {
      assert es[0] in es && forall e <- es[1..] :: e in es;
      NoLateNoSlip(Step(s, es[0]), es[1..]);
    }
  }

  lemma One(s: State, e: Event)
    ensures Run(s, [e]) == Step(s, e)
  {
    assert [e][1..] == [];
  }

  /** If `w` has an empty batch to add, it does so first. */
  lemma {:induction false} Freed(s: State, v: nat, w: nat) returns (es: seq<Event>)
    requires Astray(s, v, w) && (forall b <- s.inFlight :: b.worker == w ==> b.errors == [])
    ensures NoLate(es) && Astray(Run(s, es), v, w) && !Reporting(Run(s, es), w)
  {
    if k :| 0 <= k < |s.inFlight| && s.inFlight[k].worker == w {
      es := [Deliver(k)];
      One(s, Deliver(k));
      EmptyDelivery(s, k);
      var t := Delivered(s, k);
      assert forall b <- s.inFlight :: b.worker != w ==> b in t.inFlight;
    } else {
      es := [];
    }
  }

  lemma {:induction false} EmptyDelivery(s: State, k: nat)
    requires InOrder(s) && k < |s.inFlight| && s.inFlight[k].errors == []
    ensures InOrder(Delivered(s, k))
  {
    DeliverKeepsLife(s, k);
    CarriedSplit(s.inFlight, k);
    Overtakes(s.inventory, Carried(s.inFlight[..k]), [], Carried(s.inFlight[k + 1..]));
  }

  lemma {:induction false} ForeignSnoc(errors: seq<nat>, x: nat, err: Option<nat>)
    requires err != Some(x)
    ensures Foreign(errors + [x], err) == Foreign(errors, err) + [x]
  {
    assert (errors + [x])[..|errors|] == errors;
  }

  lemma {:induction false} RecordStrays(s: State, v: nat, w: nat, x: nat)
    requires Astray(s, v, w) && !Reporting(s, w) && s.bodyError != Some(x)
    ensures var r := Step(s, Record(w, x)); r == s.(errors := s.errors + [x]) && Astray(r, v, w) && Untaken(r) == Untaken(s) + [x]
  {
    StepKeepsLife(s, Record(w, x));
    ReportedKept(s, Record(w, x));
    var r := Step(s, Record(w, x));
    assert r.errors[r.cursor..] == s.errors[s.cursor..] + [x];
    ForeignSnoc(s.errors[s.cursor..], x, s.bodyError);
  }

  lemma {:induction false} TakeStrays(r: State, v: nat, w: nat)
    requires Astray(r, v, w) && !Reporting(r, w) && v in r.due && Untaken(r) != []
    ensures var t := Taken(r, v); Astray(t, v, w) && !Reporting(t, w) && v !in t.due
  {
    TakeKeepsOrder(r, v);
    var t := Taken(r, v);
    assert t.inFlight[|r.inFlight|] in t.inFlight;
    assert forall b <- t.inFlight :: b in r.inFlight || b.worker == v;
  }

  /** A report still due takes an error that the work on `w` records meanwhile. */
  lemma {:induction false} Burdened(s: State, v: nat, w: nat, x: nat)
    requires Astray(s, v, w) && !Reporting(s, w) && v in s.due && s.bodyError != Some(x)
    ensures var t := Run(s, [Record(w, x), Take(v)]); Astray(t, v, w) && !Reporting(t, w) && v !in t.due
  {
    RecordStrays(s, v, w, x);
    TakeStrays(Step(s, Record(w, x)), v, w);
    TwoSteps(s, Record(w, x), Take(v));
  }

  lemma Swapped(inventory: seq<nat>, a: seq<nat>, c: seq<nat>, y: nat)
    requires a != [] && y !in a && c != [] && c[|c| - 1] == y
    ensures (inventory + c) + a != inventory + (a + c)
  {
    var n := |inventory| + |a| + |c| - 1;
    assert ((inventory + c) + a)[n] == a[|a| - 1] && (inventory + (a + c))[n] == y;
  }

  /** The work on `w` records an error and reports it first. */
  lemma {:induction false} Overtaken(s: State, v: nat, w: nat, y: nat)
    requires Astray(s, v, w) && !Reporting(s, w) && v !in s.due && s.bodyError != Some(y) && y !in Carried(s.inFlight)
    ensures !InOrder(Run(s, [Record(w, y), Release(w)] + [Take(w), Deliver(|s.inFlight|)]))
  {
    var n := |s.inFlight|;
    var r := Step(Step(s, Record(w, y)), Release(w));
    Ahead(s, w, y);
    TwoSteps(s, Record(w, y), Release(w));
    TakeKeepsLife(r, w);
    TakeAdds(r, w);
    var t := Taken(r, w);
    var a, c := Carried(s.inFlight), Untaken(r);
    assert s.inventory + (a + c) == (s.inventory + a) + c == Reported(t);
    LoadedCarries(s.inFlight, v);
    Swapped(s.inventory, a, c, y);
    assert t.inFlight[..n] + t.inFlight[n + 1..] == s.inFlight;
    var u := Delivered(t, n);
    assert u.inventory == s.inventory + c && u.inFlight == s.inFlight && Reported(u) == Reported(t);
    TwoSteps(r, Take(w), Deliver(n));
    RunConcat(s, [Record(w, y), Release(w)], [Take(w), Deliver(n)]);
  }

  lemma TwoSteps(s: State, a: Event, b: Event)
    ensures Run(s, [a, b]) == Step(Step(s, a), b)
  {
    One(Step(s, a), b);
    assert [a, b][1..] == [b];
  }

  lemma {:induction false} Ahead(s: State, w: nat, y: nat)
    requires InOrder(s) && !s.owner && s.units == multiset{w} && !Reporting(s, w) && s.due == {} && s.bodyError != Some(y)
    ensures var r := Step(Step(s, Record(w, y)), Release(w));
            && Life(r) && r == s.(errors := s.errors + [y], units := multiset{}, due := {w})
            && Reported(r) == Reported(s) && Untaken(r) == Untaken(s) + [y]
  {
    var q := Step(s, Record(w, y));
    StepKeepsLife(s, Record(w, y));
    ReportedKept(s, Record(w, y));
    StepKeepsLife(q, Release(w));
    ReportedKept(q, Release(w));
    assert q.errors[q.cursor..] == s.errors[s.cursor..] + [y];
    ForeignSnoc(s.errors[s.cursor..], y, s.bodyError);
    assert multiset{w} - multiset{w} == multiset{};
  }

  lemma {:induction false} LoadedCarries(batches: seq<Batch>, v: nat)
    requires Loaded({}, batches, v)
    ensures Carried(batches) != []
  {
    var i :| 0 <= i < |batches| && batches[i].worker == v && batches[i].errors != [];
    CarriedSplit(batches, i);
  }

  /** An error that is neither in `a` nor the body's. */
  function Unused(a: seq<nat>, err: Option<nat>): (x: nat)
    ensures (forall y <- a :: y < x) && (err.Some? ==> err.value < x)
  {
    if a == [] then (if err.Some? then err.value + 1 else 0)
    else
      assert a == a[..|a| - 1] + [a[|a| - 1]];
      Max(Unused(a[..|a| - 1], err), a[|a| - 1] + 1)
  }

  lemma {:induction false} StrayCanSwap(s: State, v: nat, w: nat) returns (es: seq<Event>)
    requires Astray(s, v, w) && !Reporting(s, w) && v !in s.due
    ensures NoLate(es) && !InOrder(Run(s, es))
  {
    var y := Unused(Carried(s.inFlight), s.bodyError);
    es := [Record(w, y), Release(w)] + [Take(w), Deliver(|s.inFlight|)];
    Overtaken(s, v, w, y);
  }

  lemma {:induction false} FreeCanSwap(s: State, v: nat, w: nat) returns (es: seq<Event>)
    requires Astray(s, v, w) && !Reporting(s, w)
    ensures NoLate(es) && !InOrder(Run(s, es))
  {
    if v in s.due {
      var x := Unused([], s.bodyError);
      var burden := [Record(w, x), Take(v)];
      Burdened(s, v, w, x);
      var last := StrayCanSwap(Run(s, burden), v, w);
      RunConcat(s, burden, last);
      es := burden + last;
    } else {
      es := StrayCanSwap(s, v, w);
    }
  }

  /** From any slip, a run without another slip that breaks the order. */
  lemma {:induction false} SlipCanSwap(s: State, w: nat) returns (es: seq<Event>)
    requires Clean(s) && Slips(s, Late(w))
    ensures NoLate(es) && !InOrder(Run(Step(s, Late(w)), es))
  {
    var v :| Loaded(s.due, s.inFlight, v) && v != w;
    SlipStrays(s, v, w);
    var t := Step(s, Late(w));
    var free := Freed(t, v, w);
    var last := FreeCanSwap(Run(t, free), v, w);
    RunConcat(t, free, last);
    es := free + last;
  }

  /** A step is harmless to the order, whatever slip-free run follows, exactly when it
      does not put new work away from a worker that still has to report. */
  lemma {:induction false} HarmlessIffNoSlip(s: State, e: Event)
    requires Clean(s)
    ensures !Slips(s, e) <==> forall es :: NoSlip(Step(s, e), es) ==> InOrder(Run(Step(s, e), es))
  {
    if Slips(s, e) {
      var es := SlipCanSwap(s, e.worker);
      NoLateNoSlip(Step(s, e), es);
    } else {
      StepKeepsClean(s, e);
      forall es | NoSlip(Step(s, e), es)
        ensures InOrder(Run(Step(s, e), es))
      {
        OrderedWithoutSlips(Step(s, e), es);
      }
    }
  }

  // ---- such a run

  /** A callback during the first report costs the handle its place among the active
      ones; the Stage is bound to worker 2; a second callback lands there while worker
      1 still has to report, and its report comes first. */
  function LostAndRebound(): seq<Event> {
    [SetBody(None), OwnerDone] + [Late(1), Take(1)] + [Deliver(0), Record(1, 11)] + [Release(1), Late(2)]
  }

  function SecondFirst(): seq<Event> {
    [Take(1), Record(2, 22)] + [Release(2), Take(2)] + [Deliver(1), Deliver(0)]
  }

  lemma {:induction false} LostAndReboundRuns()
    ensures Run(Submitted(true, 1), LostAndRebound()) == REBOUND
  {
    var s0 := Submitted(true, 1);
    var s1 := State([], 0, true, None, multiset{}, false, {1}, [], [], true, true, 1);
    var s2 := State([], 0, true, None, multiset{1}, false, {}, [Batch(1, [])], [], true, true, 1);
    var s3 := State([11], 0, true, None, multiset{1}, false, {}, [], [], true, false, 1);
    TwoSteps(s0, SetBody(None), OwnerDone);
    assert multiset{1} - multiset{1} == multiset{};
    assert Step(Step(s0, SetBody(None)), OwnerDone) == s1;
    TwoSteps(s1, Late(1), Take(1));
    assert Step(Step(s1, Late(1)), Take(1)) == s2;
    TwoSteps(s2, Deliver(0), Record(1, 11));
    assert Step(s2, Deliver(0)).inFlight == [];
    assert Step(Step(s2, Deliver(0)), Record(1, 11)) == s3;
    TwoSteps(s3, Release(1), Late(2));
    RunConcat(s0, [SetBody(None), OwnerDone], [Late(1), Take(1)]);
    RunConcat(s0, [SetBody(None), OwnerDone] + [Late(1), Take(1)], [Deliver(0), Record(1, 11)]);
    RunConcat(s0, [SetBody(None), OwnerDone] + [Late(1), Take(1)] + [Deliver(0), Record(1, 11)], [Release(1), Late(2)]);
  }

  const REBOUND := State([11], 0, true, None, multiset{2}, false, {1}, [], [], true, true, 2)
  const HOLDING := State([11, 22], 1, true, None, multiset{2}, false, {}, [Batch(1, [11])], [], true, true, 2)
  const BOTH := State([11, 22], 2, true, None, multiset{}, false, {}, [Batch(1, [11]), Batch(2, [22])], [], true, true, 2)
  const SWAPPED := State([11, 22], 2, true, None, multiset{}, false, {}, [], [22, 11], true, false, 2)

  lemma {:induction false} FirstTakes()
    ensures Run(REBOUND, [Take(1), Record(2, 22)]) == HOLDING
  {
    ForeignSnoc([], 11, None);
    assert [11][0..] == [] + [11] && [11] + [22] == [11, 22];
    TwoSteps(REBOUND, Take(1), Record(2, 22));
    assert Step(REBOUND, Take(1)).inFlight == [Batch(1, [11])];
  }

  lemma {:induction false} SecondTakes()
    ensures Run(HOLDING, [Release(2), Take(2)]) == BOTH
  {
    ForeignSnoc([], 22, None);
    assert [11, 22][1..] == [] + [22];
    TwoSteps(HOLDING, Release(2), Take(2));
    assert multiset{2} - multiset{2} == multiset{};
    assert Step(HOLDING, Release(2)).due == {2};
  }

  lemma {:induction false} SecondAddsFirst()
    ensures Run(BOTH, [Deliver(1), Deliver(0)]) == SWAPPED
  {
    TwoSteps(BOTH, Deliver(1), Deliver(0));
    assert Step(BOTH, Deliver(1)).inFlight == [Batch(1, [11])];
  }

  lemma {:induction false} SecondFirstRuns()
    ensures Run(REBOUND, SecondFirst()) == SWAPPED
  {
    FirstTakes();
    SecondTakes();
    SecondAddsFirst();
    RunConcat(REBOUND, [Take(1), Record(2, 22)], [Release(2), Take(2)]);
    RunConcat(REBOUND, [Take(1), Record(2, 22)] + [Release(2), Take(2)], [Deliver(1), Deliver(0)]);
  }

  lemma {:induction false} Overtaking()
    ensures var s := Run(Submitted(true, 1), LostAndRebound() + SecondFirst());
            s.errors == [11, 22] && s.inventory == [22, 11] && s.units == multiset{} && s.due == {} && s.inFlight == []
  {
    LostAndReboundRuns();
    SecondFirstRuns();
    RunConcat(Submitted(true, 1), LostAndRebound(), SecondFirst());
  }
}
