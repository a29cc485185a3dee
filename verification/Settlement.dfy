/**
  The settlement counter of a handle and its barrier: a new future for every
  busy episode, resolved when the episode ends.
 */
module Settlement {
  /** Barriers are numbered; 0 is the future shared by handles that never were
      busy.  `barrier` is the current one and `made` the last one created. */
  datatype State = State(pending: nat, barrier: nat, resolved: set<nat>, made: nat)

  datatype Event = Retain | Release

  const IDLE := State(0, 0, {0}, 0)

  function Step(s: State, e: Event): State {
    match e
    case Retain =>
      if s.pending == 0 then State(1, s.made + 1, s.resolved, s.made + 1) else s.(pending := s.pending + 1)
    case Release =>
      if s.pending == 0 then s
      else if s.pending == 1 then s.(pending := 0, resolved := s.resolved + {s.barrier})
      else s.(pending := s.pending - 1)
  }

  function Run(s: State, es: seq<Event>): State
    decreases |es|
  {
    if es == [] then s else Run(Step(s, es[0]), es[1..])
  }

  lemma {:induction false} RunSnoc(s: State, es: seq<Event>, e: Event)
    ensures Run(s, es + [e]) == Step(Run(s, es), e)
    decreases |es|
  {
    if es == [] {
      assert es + [e] == [e] && [e][1..] == [];
    } else {
      assert (es + [e])[0] == es[0] && (es + [e])[1..] == es[1..] + [e];
      RunSnoc(Step(s, es[0]), es[1..], e);
    }
  }

  ghost predicate Inv(s: State) {
    && s.barrier <= s.made
    && (s.barrier in s.resolved <==> s.pending == 0)
    && (forall b: nat :: b <= s.made && b != s.barrier ==> b in s.resolved)
    && (forall b <- s.resolved :: b <= s.made)
  }

  lemma {:induction false} RunKeepsInv(s: State, es: seq<Event>)
    requires Inv(s)
    ensures Inv(Run(s, es)) && s.resolved <= Run(s, es).resolved
    decreases |es|
  {
    if es != [] {
      RunKeepsInv(Step(s, es[0]), es[1..]);
    }
  }

  /** In every run the current barrier is resolved exactly while nothing is
      pending, and every barrier handed out in an earlier episode is resolved. */
  lemma BarrierInEveryRun(es: seq<Event>)
    ensures var s := Run(IDLE, es);
            && (s.barrier in s.resolved <==> s.pending == 0)
            && (forall b: nat :: b <= s.made && b != s.barrier ==> b in s.resolved)
  {
    RunKeepsInv(IDLE, es);
  }

  /** A barrier taken while work is pending resolves exactly when that episode
      ends, whatever later episodes do. */
  lemma {:induction false} BarrierEndsWithEpisode(s: State, es: seq<Event>)
    requires Inv(s) && s.pending > 0
    ensures s.barrier in Run(s, es).resolved <==> exists i :: 0 <= i <= |es| && Run(s, es[..i]).pending == 0
    decreases |es|
  {
    if es == [] {
      assert forall i :: 0 <= i <= |es| ==> es[..i] == [];
    } else {
      var t := Step(s, es[0]);
      assert forall i :: 1 <= i <= |es| ==> es[..i][0] == es[0] && es[..i][1..] == es[1..][..i - 1];
      if t.pending == 0 {
        RunKeepsInv(t, es[1..]);
        assert Run(s, es[..1]) == t;
      } else {
        BarrierEndsWithEpisode(t, es[1..]);
        EpisodeShift(s, es);
      }
    }
  }

  lemma EpisodeShift(s: State, es: seq<Event>)
    requires es != [] && s.pending > 0
    ensures (exists i :: 0 <= i <= |es| && Run(s, es[..i]).pending == 0) <==>
            (exists i :: 0 <= i <= |es| - 1 && Run(Step(s, es[0]), es[1..][..i]).pending == 0)
  {
    forall i | 0 <= i <= |es| - 1
      ensures Run(s, es[..i + 1]) == Run(Step(s, es[0]), es[1..][..i])
    {
      assert es[..i + 1][0] == es[0] && es[..i + 1][1..] == es[1..][..i];
    }
    assert Run(s, es[..0]) == s;
    if i :| 0 <= i <= |es| && Run(s, es[..i]).pending == 0 {
      assert i > 0 && Run(s, es[..i - 1 + 1]) == Run(Step(s, es[0]), es[1..][..i - 1]);
    }
  }

  /** Every unit counts; the first of an episode brings a new barrier, the last one
      released resolves it, and nothing else does. */
  lemma UnitsCount(s: State)
    ensures Step(s, Retain).pending == s.pending + 1 && Step(s, Retain).resolved == s.resolved
    ensures Step(s, Retain).made == s.made + (if s.pending == 0 then 1 else 0)
    ensures Step(s, Retain).barrier == if s.pending == 0 then s.made + 1 else s.barrier
    ensures s.pending > 0 ==> Step(s, Release) == s.(pending := s.pending - 1, resolved := s.resolved + if s.pending == 1 then {s.barrier} else {})
    ensures s.pending == 0 ==> Step(s, Release) == s
  {
  }
}
