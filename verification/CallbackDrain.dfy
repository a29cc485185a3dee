/**
  The callback queue of a handle: producers append under the state lock, one
  drainer takes from the front, and an "active" flag says that a drainer exists
  or has been promised.
 */
module CallbackDrain {
  import opened Common

  datatype Kind = Success | Error | Finally

  datatype Callback = Callback(id: nat, kind: Kind)

  /** `owed` counts drains promised by the body's outcome or handed to a backend
      and not yet begun, `running` the drains in their loop, and `registering` is
      the late registration waiting, under the scope lock, for its drain to be
      submitted.  `accepted`, `taken` and `ran` are histories. */
  datatype State = State(
    completed: bool,
    failed: bool,
    queue: seq<Callback>,
    active: bool,
    owed: nat,
    running: nat,
    registering: Option<Callback>,
    accepted: seq<Callback>,
    taken: seq<Callback>,
    ran: seq<Callback>)

  datatype Event =
    | Register(callback: Callback)
    | SubmitOk
    | SubmitFail
    | SetBody(error: bool)
    | BeginDrain
    | DrainOne

  const NEW := State(false, false, [], false, 0, 0, None, [], [], [])

  predicate Matches(kind: Kind, failed: bool) {
    match kind
    case Success => !failed
    case Error => failed
    case Finally => true
  }

  function Runnable(cs: seq<Callback>, failed: bool): seq<Callback> {
    if cs == [] then []
    else
      var n := |cs| - 1;
      if Matches(cs[n].kind, failed) then Runnable(cs[..n], failed) + [cs[n]] else Runnable(cs[..n], failed)
  }

  /** `_activate_callback_drain_locked`. */
  predicate Activates(s: State) {
    s.queue != [] && !s.active
  }

  function Step(s: State, e: Event): State {
    match e
    case Register(c) =>
      if s.registering.Some? then s
      else
        var t := s.(queue := s.queue + [c]);
        if t.completed && Activates(t) then t.(active := true, registering := Some(c))
        else t.(accepted := s.accepted + [c])
    case SubmitOk =>
      if s.registering.None? then s
      else s.(registering := None, owed := s.owed + 1, accepted := s.accepted + [s.registering.value])
    case SubmitFail =>
      if s.registering.None? || s.queue == [] then s
      else s.(registering := None, queue := s.queue[..|s.queue| - 1], active := false)
    case SetBody(err) =>
      if s.completed then s
      else
        var t := s.(completed := true, failed := err);
        if Activates(t) then t.(active := true, owed := t.owed + 1) else t
    case BeginDrain => if s.owed == 0 then s else s.(owed := s.owed - 1, running := s.running + 1)
    case DrainOne =>
      if s.running == 0 then s
      else if s.queue == [] then s.(active := false, running := s.running - 1)
      else
        var c := s.queue[0];
        s.(queue := s.queue[1..], taken := s.taken + [c], ran := if Matches(c.kind, s.failed) then s.ran + [c] else s.ran)
  }

  function Run(s: State, es: seq<Event>): State
    decreases |es|
  {
    if es == [] then s else Run(Step(s, es[0]), es[1..])
  }

  lemma {:induction false} RunSnoc(s: State, es: seq<Event>, e: Event)
    ensures Run(s, es + [e]) == Step(Run(s, es), e)
    decreases |es|
  {
    if es == [] {
      assert es + [e] == [e] && [e][1..] == [];
    } else {
      assert (es + [e])[0] == es[0] && (es + [e])[1..] == es[1..] + [e];
      RunSnoc(Step(s, es[0]), es[1..], e);
    }
  }

  function Pending(s: State): seq<Callback> {
    if s.registering.Some? then [s.registering.value] else []
  }

  ghost predicate Inv(s: State) {
    && s.owed + s.running + |Pending(s)| == (if s.active then 1 else 0)
    && (s.completed && s.queue != [] ==> s.active)
    && (!s.completed ==> !s.active && s.taken == [] && s.ran == [])
    && (s.registering.Some? ==> s.completed && s.queue == [s.registering.value])
    && s.accepted + Pending(s) == s.taken + s.queue
    && s.ran == Runnable(s.taken, s.failed)
  }

  lemma {:induction false} RunnableCount(cs: seq<Callback>, failed: bool, c: Callback)
    ensures multiset(Runnable(cs, failed))[c] ==
            if c.kind == Finally || (c.kind == Success && !failed) || (c.kind == Error && failed) then multiset(cs)[c] else 0
  {
    if cs != [] {
      var n := |cs| - 1;
      RunnableCount(cs[..n], failed, c);
      assert cs == cs[..n] + [cs[n]];
      assert multiset(cs) == multiset(cs[..n]) + multiset{cs[n]};
    }
  }

  lemma SamePrefix(a: seq<Callback>, b: seq<Callback>, c: Callback)
    requires a + [c] == b + [c]
    ensures a == b
  {
    assert (a + [c])[..|a|] == a && (b + [c])[..|b|] == b && |a + [c]| == |b + [c]|;
  }

  lemma RegisterKeeps(s: State, c: Callback)
    requires Inv(s) && s.registering.None?
    ensures Inv(Step(s, Register(c)))
  {
    assert s.accepted == s.taken + s.queue;
    assert (s.taken + s.queue) + [c] == s.taken + (s.queue + [c]);
  }

  lemma SubmitKeeps(s: State, e: Event)
    requires Inv(s) && s.registering.Some? && (e.SubmitOk? || e.SubmitFail?)
    ensures Inv(Step(s, e))
  {
    SamePrefix(s.accepted, s.taken, s.registering.value);
    assert s.queue[..0] == [] && s.taken + [] == s.taken;
  }

  lemma DrainKeeps(s: State)
    requires Inv(s) && s.running > 0 && s.queue != []
    ensures Inv(Step(s, DrainOne))
  {
    assert s.taken + s.queue == (s.taken + [s.queue[0]]) + s.queue[1..];
    assert (s.taken + [s.queue[0]])[..|s.taken|] == s.taken;
  }

  lemma StepKeepsInv(s: State, e: Event)
    requires Inv(s)
    ensures Inv(Step(s, e))
  {
    match e
    case Register(c) => if s.registering.None? { RegisterKeeps(s, c); }
    case SubmitOk => if s.registering.Some? { SubmitKeeps(s, e); }
    case SubmitFail => if s.registering.Some? { SubmitKeeps(s, e); }
    case DrainOne => if s.running > 0 && s.queue != [] { DrainKeeps(s); }
    case _ =>
  }

  lemma {:induction false} RunKeepsInv(s: State, es: seq<Event>)
    requires Inv(s)
    ensures Inv(Run(s, es))
    decreases |es|
  {
    if es != [] {
      StepKeepsInv(s, es[0]);
      RunKeepsInv(Step(s, es[0]), es[1..]);
    }
  }

  /** At every lock boundary of every run there is at most one drainer, a completed
      body with queued callbacks has exactly one, accepted callbacks leave the
      queue once each and in order of registration, and of the callbacks taken just
      those run, as often as they were taken, that are of kind Finally, Success on a
      body that did not fail, or Error on one that did. */
  lemma DrainInEveryRun(es: seq<Event>)
    ensures var s := Run(NEW, es);
            && s.owed + s.running + |Pending(s)| <= 1
            && (s.completed && s.queue != [] ==> s.owed + s.running + |Pending(s)| == 1)
            && s.accepted + Pending(s) == s.taken + s.queue
            && (forall c :: multiset(s.ran)[c] ==
                            if c.kind == Finally || (c.kind == Success && !s.failed) || (c.kind == Error && s.failed) then multiset(s.taken)[c] else 0)
            && (s.completed && s.owed + s.running == 0 && s.registering.None? ==> s.taken == s.accepted)
  {
    RunKeepsInv(NEW, es);
    var s := Run(NEW, es);
    assert s.queue == [] ==> s.taken + s.queue == s.taken;
    forall c
      ensures multiset(s.ran)[c] ==
              if c.kind == Finally || (c.kind == Success && !s.failed) || (c.kind == Error && s.failed) then multiset(s.taken)[c] else 0
    {
      RunnableCount(s.taken, s.failed, c);
    }
  }

  // --------------------------------------------------- what each event does

  /** The first outcome stays; it starts a drain if callbacks wait and none is active. */
  lemma {:induction false} SetBodyDoes(s: State, err: bool)
    requires Inv(s)
    ensures var t := Step(s, SetBody(err));
            if s.completed then t == s
            else t.completed && t.failed == err && t.queue == s.queue && t.accepted == s.accepted
                 && t.active == (s.queue != []) && t.owed == (if s.queue != [] then 1 else 0)
  {
  }

  /** A pass takes the head of the queue and runs it if it fits; on an empty queue the
      drainer clears the flag and is gone. */
  lemma {:induction false} DrainOneDoes(s: State)
    requires Inv(s) && s.running > 0
    ensures var t := Step(s, DrainOne);
            if s.queue == [] then t == s.(active := false, running := 0)
            else
              var c := s.queue[0];
              var runs := c.kind == Finally || (c.kind == Success && !s.failed) || (c.kind == Error && s.failed);
              t == s.(queue := s.queue[1..], taken := s.taken + [c], ran := s.ran + if runs then [c] else [])
  {
  }

  /** A submitted or promised drain begins, and only such a one. */
  lemma {:induction false} BeginDrainDoes(s: State)
    requires Inv(s)
    ensures Step(s, BeginDrain) == if s.owed > 0 then s.(owed := 0, running := 1) else s
    ensures s.registering.Some? ==> Step(s, SubmitOk) == s.(registering := None, owed := 1, accepted := s.accepted + [s.registering.value])
  {
  }

  /** A late registration is held until its drain is submitted; if that fails it
      leaves no trace.  Any other registration is accepted at once. */
  lemma RegisterEffect(s: State, c: Callback)
    requires Inv(s) && s.registering.None?
    ensures var t := Step(s, Register(c));
            && t.queue == s.queue + [c]
            && (if s.completed && !s.active then t.registering == Some(c) && t.accepted == s.accepted && Step(t, SubmitFail) == s
                else t.registering.None? && t.accepted == s.accepted + [c])
  {
    assert s.completed && !s.active ==> s.queue == [];
    assert (s.queue + [c])[..|s.queue|] == s.queue;
  }

  /** In every run, a late registration that fails to submit restores the queue. */
  lemma FailedSubmissionRestores(es: seq<Event>, c: Callback)
    requires var s := Run(NEW, es); s.completed && !s.active
    ensures var s := Run(NEW, es);
            Step(s, Register(c)).registering == Some(c) && Step(Step(s, Register(c)), SubmitFail) == s
  {
    RunKeepsInv(NEW, es);
    RegisterEffect(Run(NEW, es), c);
  }

  /** A running drainer left alone empties the queue, running what fits. */
  lemma {:induction false} DrainerFinishes(s: State, n: nat)
    requires Inv(s) && s.running == 1 && n == |s.queue|
    ensures var t := Run(s, seq(n + 1, _ => DrainOne));
            && t.queue == [] && !t.active && t.running == 0
            && t.taken == s.taken + s.queue && t.ran == Runnable(s.taken + s.queue, s.failed)
    decreases n
  {
    var es := seq(n + 1, _ => DrainOne);
    StepKeepsInv(s, DrainOne);
    if n == 0 {
      assert es[1..] == [];
      assert s.taken + s.queue == s.taken;
    } else {
      assert es[1..] == seq(n, _ => DrainOne);
      DrainerFinishes(Step(s, DrainOne), n - 1);
      assert s.taken + s.queue == (s.taken + [s.queue[0]]) + s.queue[1..];
    }
  }
}
