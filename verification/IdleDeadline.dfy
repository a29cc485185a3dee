/**
  The idle deadline of a Stage, over real time and with ideal timers: a timer that
  is not cancelled fires exactly when it is due, and a cancelled one may still fire
  at any later time.
 */
module IdleDeadline {
  import opened Common

  datatype Timer = Timer(due: real, token: nat)

  datatype Expiry = Expiry(at: real, lastActivity: real)

  /** `work` counts active handles and adopted tasks, `stale` are the cancelled
      timers, `untouched` says that the work was started by late callbacks alone,
      which do not touch the timer.  `expiry` records a seal by the deadline. */
  datatype State = State(
    now: real,
    lastActivity: real,
    work: nat,
    timer: Option<Timer>,
    token: nat,
    isSealed: bool,
    stale: set<Timer>,
    untouched: bool,
    expiry: Option<Expiry>)

  /** `Start` is work entering through `go` or `adopt`, `Finish` a handle leaving,
      `FinishAdopted` a task leaving (which counts as activity), `Abandon` a release
      of the backend by an operation that found no work. */
  datatype Event =
    | Elapse(d: real)
    | Start
    | LateStart
    | Touch
    | Finish
    | FinishAdopted
    | Abandon
    | Seal
    | Fire
    | FireStale(timer: Timer)

  function New(now: real): State {
    State(now, now, 0, None, 0, false, {}, false, None)
  }

  function Cancelled(s: State): set<Timer> {
    s.stale + if s.timer.Some? then {s.timer.value} else {}
  }

  function Entered(s: State): State {
    s.(work := s.work + 1)
  }

  function EnteredLate(s: State): State {
    s.(work := s.work + 1, untouched := s.untouched || (s.work == 0 && !s.isSealed))
  }

  function Left(s: State): State
    requires s.work > 0
  {
    s.(work := s.work - 1)
  }

  /** `_touch_locked`. */
  function Touched(s: State, timeout: Option<real>): State {
    var t := s.(lastActivity := s.now);
    if timeout.None? || t.work == 0 || t.isSealed || t.timer.Some? then t
    else t.(token := t.token + 1, timer := Some(Timer(t.now + timeout.value, t.token + 1)), untouched := false)
  }

  /** The timer part of `_release_backend_if_quiescent_locked`. */
  function Quiet(s: State): State {
    if s.work > 0 then s
    else s.(timer := None, token := s.token + 1, stale := Cancelled(s), untouched := false)
  }

  function Finished(s: State): State {
    if s.work == 0 then s else Quiet(Left(s))
  }

  /** `_idle_deadline_reached`. */
  function Reached(s: State, timeout: Option<real>, token: nat): State {
    if token != s.token || timeout.None? || s.isSealed || s.work == 0 then s
    else if s.now - s.lastActivity < timeout.value then
      s.(timer := Some(Timer(s.now + (timeout.value - (s.now - s.lastActivity)), token)))
    else s.(timer := None, isSealed := true, expiry := Some(Expiry(s.now, s.lastActivity)))
  }

  function Sealed(s: State): State {
    s.(isSealed := true, timer := None, token := s.token + 1, stale := Cancelled(s))
  }

  /** Time does not pass a due timer. */
  predicate MayElapse(s: State, d: real) {
    d >= 0.0 && (s.timer.Some? ==> s.now + d <= s.timer.value.due)
  }

  function Step(s: State, timeout: Option<real>, e: Event): State {
    match e
    case Elapse(d) => if MayElapse(s, d) then s.(now := s.now + d) else s
    case Start => Touched(Entered(s), timeout)
    case LateStart => EnteredLate(s)
    case Touch => Touched(s, timeout)
    case Finish => Finished(s)
    case FinishAdopted => if s.work == 0 then s else Quiet(Touched(Left(s), timeout))
    case Abandon => Quiet(s)
    case Seal => Sealed(s)
    case Fire =>
      if s.timer.None? || s.now < s.timer.value.due then s
      else Reached(s.(timer := None), timeout, s.timer.value.token)
    case FireStale(t) =>
      if t !in s.stale || s.now < t.due then s else Reached(s.(stale := s.stale - {t}), timeout, t.token)
  }

  function Run(s: State, timeout: Option<real>, es: seq<Event>): State
    decreases |es|
  {
    if es == [] then s else Run(Step(s, timeout, es[0]), timeout, es[1..])
  }

  /** Cancelled timers carry old tokens.  A busy, unsealed Stage has a timer unless
      it is untouched; it carries the current token, lies ahead and is due in time. */
  ghost predicate Armed(s: State, timeout: real) {
    && s.timer.Some? && s.timer.value.token == s.token
    && s.now <= s.timer.value.due <= s.lastActivity + timeout
  }

  ghost predicate Inv(s: State, timeout: Option<real>) {
    && s.lastActivity <= s.now
    && (forall t <- s.stale :: t.token < s.token)
    && (s.timer.Some? ==> timeout.Some? && s.work > 0 && !s.isSealed && Armed(s, timeout.value))
    && (timeout.Some? && s.work > 0 && !s.isSealed ==> (s.timer.None? <==> s.untouched))
    && (s.work == 0 ==> !s.untouched)
    && (s.expiry.Some? ==>
          timeout.Some? && s.isSealed && s.expiry.value.at == s.expiry.value.lastActivity + timeout.value)
  }

  lemma StepKeepsInv(s: State, timeout: Option<real>, e: Event)
    requires (timeout.Some? ==> timeout.value > 0.0) && Inv(s, timeout)
    ensures Inv(Step(s, timeout, e), timeout)
  {
  }

  lemma {:induction false} RunKeepsInv(s: State, timeout: Option<real>, es: seq<Event>)
    requires (timeout.Some? ==> timeout.value > 0.0) && Inv(s, timeout)
    ensures Inv(Run(s, timeout, es), timeout)
    decreases |es|
  {
    if es != [] {
      StepKeepsInv(s, timeout, es[0]);
      RunKeepsInv(Step(s, timeout, es[0]), timeout, es[1..]);
    }
  }

  /** In every run a busy, unsealed Stage that is not left untouched by late
      callbacks has a timer with the current token, due no later than its deadline
      and not yet past it, so time cannot run past the deadline; and a Stage sealed
      by the deadline was sealed exactly then. */
  lemma DeadlineInEveryRun(start: real, timeout: real, es: seq<Event>)
    requires timeout > 0.0
    ensures var s := Run(New(start), Some(timeout), es);
            && (s.work > 0 && !s.isSealed && !s.untouched ==> Armed(s, timeout) && s.now <= s.lastActivity + timeout)
            && (s.work > 0 && !s.isSealed && s.untouched ==> s.timer.None?)
            && (s.expiry.Some? ==> s.expiry.value.at == s.expiry.value.lastActivity + timeout)
  {
    RunKeepsInv(New(start), Some(timeout), es);
  }

  /** A stale timer does nothing at all, in any reachable state. */
  lemma StaleTimerIsHarmless(start: real, timeout: real, es: seq<Event>, t: Timer)
    requires timeout > 0.0
    ensures var s := Run(New(start), Some(timeout), es);
            var r := Step(s, Some(timeout), FireStale(t));
            r == s || r == s.(stale := s.stale - {t})
  {
    RunKeepsInv(New(start), Some(timeout), es);
  }

  /** What a timer that fires can be: the current one with the current token, or a
      cancelled one with an older token. */
  lemma {:induction false} FiringIs(s: State, timeout: Option<real>, t: Timer)
    requires Inv(s, timeout) && s.now >= t.due
    ensures s.timer == Some(t) ==> t.token == s.token && t !in s.stale && Step(s, timeout, Fire) == Reached(s.(timer := None), timeout, s.token)
    ensures t in s.stale ==> t.token != s.token && Step(s, timeout, FireStale(t)) == s.(stale := s.stale - {t})
  {
  }

  /** The deadline seals a Stage in a step exactly when its timer is due at the end
      of an idle period of the full length. */
  lemma SealsExactlyAtDeadline(s: State, timeout: real, e: Event)
    requires timeout > 0.0 && Inv(s, Some(timeout)) && s.work > 0 && !s.isSealed
    ensures Step(s, Some(timeout), e).expiry != s.expiry <==> e.Fire? && !s.untouched && s.now == s.lastActivity + timeout
  {
  }

  predicate Idles(e: Event) {
    e.Elapse? || e.Fire? || e.FireStale?
  }

  /** Left alone, a busy touched Stage is open before its deadline and sealed after. */
  lemma {:induction false} QuietRunSeals(s: State, timeout: real, es: seq<Event>)
    requires timeout > 0.0 && Inv(s, Some(timeout)) && s.work > 0 && !s.isSealed && !s.untouched
    requires forall e <- es :: Idles(e)
    ensures var t := Run(s, Some(timeout), es);
            && (t.now < s.lastActivity + timeout ==> !t.isSealed)
            && (t.now > s.lastActivity + timeout ==> t.isSealed)
            && (t.isSealed ==> t.expiry == Some(Expiry(s.lastActivity + timeout, s.lastActivity)))
    decreases |es|
  {
    if es != [] {
      var t := Step(s, Some(timeout), es[0]);
      StepKeepsInv(s, Some(timeout), es[0]);
      assert es[0] in es && Idles(es[0]) && forall e <- es[1..] :: e in es;
      if t.isSealed {
        StaysSealed(t, timeout, es[1..]);
      } else {
        QuietRunSeals(t, timeout, es[1..]);
      }
    }
  }

  lemma {:induction false} StaysSealed(s: State, timeout: real, es: seq<Event>)
    requires timeout > 0.0 && Inv(s, Some(timeout)) && s.isSealed && (forall e <- es :: Idles(e))
    ensures var t := Run(s, Some(timeout), es); t.isSealed && t.expiry == s.expiry && t.now >= s.now
    decreases |es|
  {
    if es != [] {
      StepKeepsInv(s, Some(timeout), es[0]);
      assert es[0] in es && Idles(es[0]) && forall e <- es[1..] :: e in es;
      StaysSealed(Step(s, Some(timeout), es[0]), timeout, es[1..]);
    }
  }

  /** A late callback on a finished handle keeps a Stage busy for any length of time,
      unsealed. */
  lemma {:induction false} LateWorkIsUnwatched(start: real, timeout: real, d: real)
    requires timeout > 0.0 && d >= 0.0
    ensures var s := Run(New(start), Some(timeout), [Start, Finish] + [LateStart, Elapse(d)]);
            s.work > 0 && !s.isSealed && s.timer.None? && s.now == s.lastActivity + d
  {
    var o := New(start);
    var s := Step(Step(o, Some(timeout), Start), Some(timeout), Finish);
    RunTwo(o, Some(timeout), Start, Finish);
    RunTwo(s, Some(timeout), LateStart, Elapse(d));
    RunConcat(o, Some(timeout), [Start, Finish], [LateStart, Elapse(d)]);
  }

  lemma {:induction false} RunConcat(s: State, timeout: Option<real>, es: seq<Event>, fs: seq<Event>)
    ensures Run(s, timeout, es + fs) == Run(Run(s, timeout, es), timeout, fs)
    decreases |es|
  {
    if es == [] {
      assert es + fs == fs;
    } else {
      assert (es + fs)[0] == es[0] && (es + fs)[1..] == es[1..] + fs;
      RunConcat(Step(s, timeout, es[0]), timeout, es[1..], fs);
    }
  }

  lemma {:induction false} RunSnoc(s: State, timeout: Option<real>, es: seq<Event>, e: Event)
    ensures Run(s, timeout, es + [e]) == Step(Run(s, timeout, es), timeout, e)
  {
    RunConcat(s, timeout, es, [e]);
    assert [e][1..] == [];
  }

  lemma {:induction false} RunTwo(s: State, timeout: Option<real>, a: Event, b: Event)
    ensures Run(s, timeout, [a, b]) == Step(Step(s, timeout, a), timeout, b)
  {
    var t := Step(s, timeout, a);
    assert Run(t, timeout, [b]) == Run(Step(t, timeout, b), timeout, []);
    assert [a, b][1..] == [b];
  }

  // ----------------------------------------------- when a busy Stage is untouched

  predicate Touches(e: Event) {
    e.Start? || e.Touch? || e.FinishAdopted?
  }

  /** Event `i` is a late callback on an idle Stage, and since then there has always
      been work and nothing has touched the timer. */
  ghost predicate OnlyLateSince(start: real, timeout: real, es: seq<Event>, i: nat) {
    && i < |es| && es[i].LateStart? && Run(New(start), Some(timeout), es[..i]).work == 0
    && (forall j :: i < j < |es| ==> !Touches(es[j]))
    && (forall j :: i < j <= |es| ==> Run(New(start), Some(timeout), es[..j]).work > 0)
  }

  ghost predicate OnlyLate(start: real, timeout: real, es: seq<Event>) {
    exists i: nat :: OnlyLateSince(start, timeout, es, i)
  }

  /** One event more: the period begins, or goes on. */
  lemma {:induction false} OnlyLateSnoc(start: real, timeout: real, es: seq<Event>, e: Event)
    ensures var s, t := Run(New(start), Some(timeout), es), Run(New(start), Some(timeout), es + [e]);
            OnlyLate(start, timeout, es + [e]) <==>
            (s.work == 0 && e.LateStart? && t.work > 0) || (OnlyLate(start, timeout, es) && !Touches(e) && t.work > 0)
  {
    var fs := es + [e];
    var n := |es|;
    assert fs[..n] == es && fs[..n + 1] == fs && fs[n] == e;
    assert forall j :: 0 <= j <= n ==> fs[..j] == es[..j];
    assert es[..n] == es;
    if i: nat :| OnlyLateSince(start, timeout, fs, i) {
      if i < n {
        assert OnlyLateSince(start, timeout, es, i);
      }
    }
    if i: nat :| OnlyLateSince(start, timeout, es, i) && !Touches(e) && Run(New(start), Some(timeout), fs).work > 0 {
      assert OnlyLateSince(start, timeout, fs, i);
    }
    if Run(New(start), Some(timeout), es).work == 0 && e.LateStart? {
      RunSnoc(New(start), Some(timeout), es, e);
      assert OnlyLateSince(start, timeout, fs, n);
    }
  }

  lemma {:induction false} UntouchedStep(s: State, timeout: real, e: Event)
    requires timeout > 0.0 && Inv(s, Some(timeout)) && !Step(s, Some(timeout), e).isSealed
    ensures var t := Step(s, Some(timeout), e);
            && !s.isSealed
            && (t.untouched <==> (s.work == 0 && e.LateStart? && t.work > 0) || (s.untouched && !Touches(e) && t.work > 0))
  {
  }

  /** An open Stage is untouched exactly when work has entered through late callbacks
      alone since it was last idle, and nothing has touched the timer since. */
  lemma {:induction false} UntouchedIffOnlyLate(start: real, timeout: real, es: seq<Event>)
    requires timeout > 0.0 && !Run(New(start), Some(timeout), es).isSealed
    ensures Run(New(start), Some(timeout), es).untouched <==> OnlyLate(start, timeout, es)
    decreases |es|
  {
    if es != [] {
      var n := |es| - 1;
      var pre, e := es[..n], es[n];
      assert es == pre + [e];
      RunSnoc(New(start), Some(timeout), pre, e);
      OnlyLateSnoc(start, timeout, pre, e);
      RunKeepsInv(New(start), Some(timeout), pre);
      UntouchedStep(Run(New(start), Some(timeout), pre), timeout, e);
      UntouchedIffOnlyLate(start, timeout, pre);
    }
  }

  // --------------------------------------------------- what each event does

  /** Activity the source records: work that enters, any touch, and a task that leaves. */
  predicate Active(s: State, e: Event) {
    e.Start? || e.Touch? || (e.FinishAdopted? && s.work > 0)
  }

  /** Activity is recorded with its time, and nothing else is. */
  lemma {:induction false} ActivityIsRecorded(s: State, timeout: Option<real>, e: Event)
    ensures Step(s, timeout, e).lastActivity ==
            if e.Start? || e.Touch? || (e.FinishAdopted? && s.work > 0) then s.now else s.lastActivity
    ensures Step(s, timeout, e).now == if e.Elapse? && e.d >= 0.0 && (s.timer.None? || s.now + e.d <= s.timer.value.due) then s.now + e.d else s.now
  {
  }

  /** Work is counted as it enters and leaves. */
  lemma {:induction false} WorkIsCounted(s: State, timeout: Option<real>, e: Event)
    ensures Step(s, timeout, e).work ==
            if e.Start? || e.LateStart? then s.work + 1 else if (e.Finish? || e.FinishAdopted?) && s.work > 0 then s.work - 1 else s.work
  {
  }

  /** Activity of an open, busy Stage without a timer starts one for the full timeout
      under a new token; in all other cases the timer is left as it is. */
  lemma {:induction false} ActivityArms(s: State, timeout: Option<real>, e: Event)
    requires e.Start? || e.Touch?
    ensures var t := Step(s, timeout, e);
            if timeout.Some? && (e.Start? || s.work > 0) && !s.isSealed && s.timer.None?
            then t.token == s.token + 1 && t.timer == Some(Timer(s.now + timeout.value, s.token + 1))
            else t.token == s.token && t.timer == s.timer
    ensures Step(s, timeout, e).isSealed == s.isSealed && Step(s, timeout, e).stale == s.stale
  {
  }

  /** When the last work leaves, or a release finds none, the timer is cancelled and its
      token outdated; a seal does the same and closes the Stage. */
  lemma {:induction false} EndDisarms(s: State, timeout: Option<real>, e: Event)
    requires e.Finish? || e.Abandon? || e.Seal?
    ensures var t := Step(s, timeout, e);
            && t.isSealed == (s.isSealed || e.Seal?)
            && (if e.Seal? || (e.Finish? && s.work == 1) || (e.Abandon? && s.work == 0)
                then t.timer.None? && t.token == s.token + 1 && t.stale == s.stale + (if s.timer.Some? then {s.timer.value} else {})
                else t.timer == s.timer && t.token == s.token && t.stale == s.stale)
  {
  }

  /** A task that leaves is activity; the last one stops the timer, any other starts one
      if there is none. */
  lemma {:induction false} FinishAdoptedDoes(s: State, timeout: Option<real>)
    requires s.work > 0
    ensures var t := Step(s, timeout, FinishAdopted);
            && t.isSealed == s.isSealed
            && (if s.work == 1
                then t.timer.None? && t.token == s.token + 1 && t.stale == s.stale + (if s.timer.Some? then {s.timer.value} else {})
                else if timeout.Some? && !s.isSealed && s.timer.None?
                then t.timer == Some(Timer(s.now + timeout.value, s.token + 1)) && t.token == s.token + 1 && t.stale == s.stale
                else t.timer == s.timer && t.token == s.token && t.stale == s.stale)
  {
  }

  /** A late callback counts as work and touches neither clock nor timer. */
  lemma {:induction false} LateStartDoes(s: State, timeout: Option<real>)
    ensures var t := Step(s, timeout, LateStart);
            t.timer == s.timer && t.token == s.token && t.isSealed == s.isSealed && t.lastActivity == s.lastActivity
  {
  }

  /** The current timer, firing when due, seals after a full idle period and otherwise
      is set again, under its token, to the end of the period. */
  lemma {:induction false} FireDoes(s: State, timeout: real)
    requires timeout > 0.0 && Inv(s, Some(timeout)) && s.timer.Some?
    ensures var t := Step(s, Some(timeout), Fire);
            if s.now < s.timer.value.due then t == s
            else if s.now - s.lastActivity < timeout
            then t == s.(timer := Some(Timer(s.lastActivity + timeout, s.token)))
            else t == s.(timer := None, isSealed := true, expiry := Some(Expiry(s.now, s.lastActivity)))
  {
  }

  // ---- the last activity of a run

  /** The time of the last activity of a run, or its start. */
  function LastActive(start: real, timeout: Option<real>, es: seq<Event>): real
    decreases |es|
  {
    if es == [] then start
    else
      var pre := es[..|es| - 1];
      if Active(Run(New(start), timeout, pre), es[|es| - 1]) then Run(New(start), timeout, pre).now
      else LastActive(start, timeout, pre)
  }

  lemma {:induction false} LastActivityIs(start: real, timeout: Option<real>, es: seq<Event>)
    ensures Run(New(start), timeout, es).lastActivity == LastActive(start, timeout, es)
    decreases |es|
  {
    if es != [] {
      var pre, e := es[..|es| - 1], es[|es| - 1];
      assert es == pre + [e];
      RunSnoc(New(start), timeout, pre, e);
      ActivityIsRecorded(Run(New(start), timeout, pre), timeout, e);
      LastActivityIs(start, timeout, pre);
    }
  }

  /** No activity of the run is later than the one on record. */
  lemma {:induction false} ActivityBefore(start: real, timeout: Option<real>, es: seq<Event>, i: nat)
    requires (timeout.Some? ==> timeout.value > 0.0) && i < |es| && Active(Run(New(start), timeout, es[..i]), es[i])
    ensures Run(New(start), timeout, es[..i]).now <= Run(New(start), timeout, es).lastActivity
    decreases |es|
  {
    var n := |es| - 1;
    var pre, e := es[..n], es[n];
    assert es == pre + [e];
    RunSnoc(New(start), timeout, pre, e);
    RunKeepsInv(New(start), timeout, pre);
    ActivityIsRecorded(Run(New(start), timeout, pre), timeout, e);
    if i < n {
      assert pre[..i] == es[..i];
      ActivityBefore(start, timeout, pre, i);
    }
  }

  lemma {:induction false} ExpiryStep(s: State, timeout: Option<real>, e: Event)
    requires (timeout.Some? ==> timeout.value > 0.0) && Inv(s, timeout)
    ensures var t := Step(s, timeout, e);
            if s.expiry.Some? then t.expiry == s.expiry
            else t.expiry.Some? ==> timeout.Some? && !Active(s, e) && t.expiry.value == Expiry(s.now, s.lastActivity) && s.now == s.lastActivity + timeout.value
  {
  }

  /** A Stage sealed by the deadline saw no activity in the last `timeout` before. */
  lemma {:induction false} IdleBeforeExpiry(start: real, timeout: real, es: seq<Event>, i: nat)
    requires timeout > 0.0 && i < |es| && Run(New(start), Some(timeout), es).expiry.Some?
    requires var s := Run(New(start), Some(timeout), es[..i]);
             s.expiry.None? && (es[i].Start? || es[i].Touch? || (es[i].FinishAdopted? && s.work > 0))
    ensures Run(New(start), Some(timeout), es[..i]).now <= Run(New(start), Some(timeout), es).expiry.value.at - timeout
    decreases |es|
  {
    var n := |es| - 1;
    var pre, e := es[..n], es[n];
    assert es == pre + [e];
    RunSnoc(New(start), Some(timeout), pre, e);
    RunKeepsInv(New(start), Some(timeout), pre);
    ExpiryStep(Run(New(start), Some(timeout), pre), Some(timeout), e);
    if i < n {
      assert pre[..i] == es[..i];
      if Run(New(start), Some(timeout), pre).expiry.Some? {
        IdleBeforeExpiry(start, timeout, pre, i);
      } else {
        ActivityBefore(start, Some(timeout), pre, i);
      }
    }
  }
}
