/**
  Root admission of a Stage: permits up to `max_concurrency`, then a FIFO queue of
  at most `max_pending` roots.  Finishing a root grants the head of the queue,
  also when the finished root never had a permit itself.
 */
module Admission {
  import opened Common

  datatype Config = Config(limit: Option<nat>, maxPending: Option<nat>)

  /** What the constructor of Stage accepts. */
  predicate Accepted(c: Config) {
    (c.limit.Some? ==> c.limit.value > 0) && (c.maxPending.Some? ==> c.limit.Some?)
  }

  /** Roots are numbered as they arrive.  `active` is the permit counter, `held` the
      roots granted and not finished; `granted` and `early` are histories: the grants
      in order, and the roots finished while still waiting. */
  datatype State = State(
    active: nat,
    waiting: seq<nat>,
    held: set<nat>,
    granted: seq<nat>,
    early: seq<nat>,
    next: nat)

  datatype Event = Admit | Finish(root: nat)

  const NEW := State(0, [], {}, [], [], 0)

  predicate HasRoom(c: Config, s: State) {
    c.limit.None? || s.active < c.limit.value
  }

  predicate Rejects(c: Config, s: State) {
    !HasRoom(c, s) && c.maxPending.Some? && |s.waiting| >= c.maxPending.value
  }

  function Without(q: seq<nat>, x: nat): (r: seq<nat>)
    ensures x !in q ==> r == q
  {
    if q == [] then [] else if q[0] == x then q[1..] else [q[0]] + Without(q[1..], x)
  }

  /** A root leaves: it gives its permit back, or its place in the queue. */
  function Left(s: State, r: nat): State {
    if r in s.held && s.active > 0 then s.(active := s.active - 1, held := s.held - {r})
    else s.(waiting := Without(s.waiting, r), early := s.early + [r])
  }

  function GrantHead(s: State): State {
    if s.waiting == [] then s
    else
      s.(waiting := s.waiting[1..], active := s.active + 1, held := s.held + {s.waiting[0]},
         granted := s.granted + [s.waiting[0]])
  }

  function Step(c: Config, s: State, e: Event): State {
    match e
    case Admit =>
      if HasRoom(c, s) then
        s.(active := s.active + 1, held := s.held + {s.next}, granted := s.granted + [s.next], next := s.next + 1)
      else if Rejects(c, s) then s
      else s.(waiting := s.waiting + [s.next], next := s.next + 1)
    case Finish(r) =>
      if (r in s.held && s.active > 0) || r in s.waiting then GrantHead(Left(s, r)) else s
  }

  function Run(c: Config, s: State, es: seq<Event>): State
    decreases |es|
  {
    if es == [] then s else Run(c, Step(c, s, es[0]), es[1..])
  }

  lemma {:induction false} RunSnoc(c: Config, s: State, es: seq<Event>, e: Event)
    ensures Run(c, s, es + [e]) == Step(c, Run(c, s, es), e)
    decreases |es|
  {
    if es == [] {
      assert es + [e] == [e] && [e][1..] == [];
    } else {
      assert (es + [e])[0] == es[0] && (es + [e])[1..] == es[1..] + [e];
      RunSnoc(c, Step(c, s, es[0]), es[1..], e);
    }
  }

  // --------------------------------------------------------------- invariant

  ghost predicate Increasing(q: seq<nat>) {
    forall i, j :: 0 <= i < j < |q| ==> q[i] < q[j]
  }

  /** Every root that arrived is waiting, was granted, or finished early; one of the
      three only.  Grants went to older roots than any that still waits. */
  ghost predicate Sorted(waiting: seq<nat>, granted: seq<nat>, next: nat) {
    && Increasing(granted + waiting)
    && (forall r <- granted + waiting :: r < next)
  }

  ghost predicate Parted(waiting: seq<nat>, granted: seq<nat>, early: seq<nat>, next: nat) {
    && NoDup(early)
    && (forall r <- early :: r < next && r !in granted && r !in waiting)
    && (forall r: nat :: r < next ==> r in waiting || r in granted || r in early)
  }

  ghost predicate Permits(active: nat, held: set<nat>, granted: seq<nat>) {
    && active == |held|
    && (forall r <- held :: r in granted)
  }

  ghost predicate Bounded(c: Config, active: nat, waiting: seq<nat>, early: seq<nat>) {
    && (waiting != [] ==> c.limit.Some? && active >= c.limit.value)
    && (c.maxPending.Some? ==> |waiting| <= c.maxPending.value)
    && (c.limit.Some? ==> active <= c.limit.value + |early|)
  }

  ghost predicate Inv(c: Config, s: State) {
    && Sorted(s.waiting, s.granted, s.next)
    && Parted(s.waiting, s.granted, s.early, s.next)
    && Permits(s.active, s.held, s.granted)
    && Bounded(c, s.active, s.waiting, s.early)
  }

  lemma IncreasingParts(a: seq<nat>, b: seq<nat>)
    requires Increasing(a + b)
    ensures Increasing(a) && Increasing(b) && forall x <- a, y <- b :: x < y
  {
    var c := a + b;
    assert forall i :: 0 <= i < |a| ==> c[i] == a[i];
    assert forall i :: 0 <= i < |b| ==> c[|a| + i] == b[i];
    forall x, y | x in a && y in b
      ensures x < y
    {
      var i :| 0 <= i < |a| && a[i] == x;
      var j :| 0 <= j < |b| && b[j] == y;
      assert c[i] < c[|a| + j];
    }
  }

  lemma IncreasingJoin(a: seq<nat>, b: seq<nat>)
    requires Increasing(a) && Increasing(b) && forall x <- a, y <- b :: x < y
    ensures Increasing(a + b)
  {
    var c := a + b;
    forall i, j | 0 <= i < j < |c|
      ensures c[i] < c[j]
    {
      if i < |a| <= j {
        assert c[i] in a && c[j] in b;
      }
    }
  }

  lemma {:induction false} WithoutKeeps(q: seq<nat>, x: nat)
    requires Increasing(q)
    ensures Increasing(Without(q, x)) && x !in Without(q, x)
    ensures forall y :: y in Without(q, x) <==> y in q && y != x
    ensures x in q ==> |Without(q, x)| == |q| - 1
  {
    if q != [] {
      var tail := q[1..];
      assert q == [q[0]] + tail;
      IncreasingParts([q[0]], tail);
      assert forall y <- tail :: [q[0]][0] < y;
      if q[0] != x {
        WithoutKeeps(tail, x);
        IncreasingJoin([q[0]], Without(tail, x));
      }
    }
  }

  /** Where the waiters that stay end up when `x` leaves. */
  lemma {:induction false} WithoutAt(q: seq<nat>, x: nat, k: nat)
    requires k < |q| && Increasing(q) && x in q && q[k] != x
    ensures (x < q[k] ==> k > 0 && |Without(q, x)| > k - 1 && Without(q, x)[k - 1] == q[k])
    ensures (x > q[k] ==> |Without(q, x)| > k && Without(q, x)[k] == q[k])
  {
    if q[0] != x {
      var tail := q[1..];
      assert x in tail && q == [q[0]] + tail;
      if k > 0 {
        WithoutAt(tail, x, k - 1);
      }
      assert q[0] < x;
    }
  }

  // ------------------------------------------------------------------- steps

  lemma AdmitNowKeeps(c: Config, s: State)
    requires Accepted(c) && Inv(c, s) && HasRoom(c, s)
    ensures Inv(c, Step(c, s, Admit))
  {
    assert s.waiting == [] && s.granted + [] == s.granted;
    IncreasingJoin(s.granted, [s.next]);
    assert s.granted + [s.next] + [] == s.granted + [s.next];
    assert s.next !in s.held;
  }

  lemma AdmitLaterKeeps(c: Config, s: State)
    requires Accepted(c) && Inv(c, s) && !HasRoom(c, s) && !Rejects(c, s)
    ensures Inv(c, Step(c, s, Admit))
  {
    IncreasingJoin(s.granted + s.waiting, [s.next]);
    assert s.granted + (s.waiting + [s.next]) == s.granted + s.waiting + [s.next];
  }

  /** What `GrantHead` needs: the invariant, but for a permit that may be missing. */
  ghost predicate Short(c: Config, s: State) {
    && Sorted(s.waiting, s.granted, s.next)
    && Parted(s.waiting, s.granted, s.early, s.next)
    && Permits(s.active, s.held, s.granted)
    && (s.waiting != [] ==> c.limit.Some? && s.active >= c.limit.value - 1)
    && (c.maxPending.Some? ==> |s.waiting| <= c.maxPending.value)
    && (c.limit.Some? ==> s.active + (if s.waiting != [] then 1 else 0) <= c.limit.value + |s.early|)
  }

  lemma GrantKeeps(c: Config, s: State)
    requires Short(c, s)
    ensures Inv(c, GrantHead(s))
  {
    if s.waiting != [] {
      var w := s.waiting[0];
      assert s.granted + [w] + s.waiting[1..] == s.granted + s.waiting;
      IncreasingParts(s.granted, s.waiting);
      assert w in s.waiting && w !in s.held;
      assert s.waiting == [w] + s.waiting[1..];
    }
  }

  lemma FinishHeldKeeps(c: Config, s: State, r: nat)
    requires Inv(c, s) && r in s.held
    ensures s.active > 0 && Inv(c, Step(c, s, Finish(r)))
  {
    GrantKeeps(c, s.(active := s.active - 1, held := s.held - {r}));
  }

  lemma DropKeeps(s: State, r: nat)
    requires Sorted(s.waiting, s.granted, s.next) && Parted(s.waiting, s.granted, s.early, s.next) && r in s.waiting
    ensures Sorted(Without(s.waiting, r), s.granted, s.next)
    ensures Parted(Without(s.waiting, r), s.granted, s.early + [r], s.next)
    ensures |Without(s.waiting, r)| == |s.waiting| - 1
  {
    IncreasingParts(s.granted, s.waiting);
    WithoutKeeps(s.waiting, r);
    IncreasingJoin(s.granted, Without(s.waiting, r));
    assert forall y <- s.granted + s.waiting :: y < s.next;
    assert forall y :: y in s.granted || y in s.waiting ==> y in s.granted + s.waiting;
  }

  lemma FinishWaiterKeeps(c: Config, s: State, r: nat)
    requires Inv(c, s) && r in s.waiting
    ensures r !in s.held && Inv(c, Step(c, s, Finish(r)))
  {
    DropKeeps(s, r);
    IncreasingParts(s.granted, s.waiting);
    GrantKeeps(c, s.(waiting := Without(s.waiting, r), early := s.early + [r]));
  }

  lemma StepKeepsInv(c: Config, s: State, e: Event)
    requires Accepted(c) && Inv(c, s)
    ensures Inv(c, Step(c, s, e))
  {
    match e
    case Admit =>
      if HasRoom(c, s) {
        AdmitNowKeeps(c, s);
      } else if !Rejects(c, s) {
        AdmitLaterKeeps(c, s);
      }
    case Finish(r) =>
      if r in s.held {
        FinishHeldKeeps(c, s, r);
      } else if r in s.waiting {
        FinishWaiterKeeps(c, s, r);
      }
  }

  lemma {:induction false} RunKeepsInv(c: Config, s: State, es: seq<Event>)
    requires Accepted(c) && Inv(c, s)
    ensures Inv(c, Run(c, s, es))
    decreases |es|
  {
    if es != [] {
      StepKeepsInv(c, s, es[0]);
      RunKeepsInv(c, Step(c, s, es[0]), es[1..]);
    }
  }

  // ---------------------------------------------------------------- theorems

  /** In every run the permit counter is the number of granted, unfinished roots;
      grants follow the order of arrival; a waiting root means that all permits are
      out; the queue respects its bound; and the active roots exceed the limit by no
      more than the roots that finished while waiting. */
  lemma AdmissionInEveryRun(c: Config, es: seq<Event>)
    requires Accepted(c)
    ensures var s := Run(c, NEW, es);
            && s.active == |s.held| && (forall r <- s.held :: r in s.granted)
            && Increasing(s.granted + s.waiting)
            && (forall r: nat :: r < s.next <==> r in s.waiting || r in s.granted || r in s.early)
            && (forall r <- s.early :: r !in s.granted)
            && (s.waiting != [] ==> c.limit.Some? && s.active >= c.limit.value)
            && (c.maxPending.Some? ==> |s.waiting| <= c.maxPending.value)
            && (c.limit.Some? ==> s.active <= c.limit.value + |s.early|)
  {
    RunKeepsInv(c, NEW, es);
    var s := Run(c, NEW, es);
    assert forall r :: r in s.granted || r in s.waiting ==> r in s.granted + s.waiting;
  }

  /** The finish that lets a root in without giving a permit back. */
  predicate Overgrants(s: State, e: Event) {
    e.Finish? && e.root !in s.held && e.root in s.waiting && |s.waiting| >= 2
  }

  lemma StepExceeds(c: Config, s: State, e: Event)
    requires Accepted(c) && Inv(c, s) && c.limit.Some? && s.active <= c.limit.value
    ensures Step(c, s, e).active > c.limit.value <==> Overgrants(s, e)
  {
    if e.Finish? && e.root in s.waiting {
      IncreasingParts(s.granted, s.waiting);
      WithoutKeeps(s.waiting, e.root);
    }
  }

  ghost predicate Within(c: Config, s: State, es: seq<Event>)
    requires c.limit.Some?
  {
    forall i :: 0 <= i <= |es| ==> Run(c, s, es[..i]).active <= c.limit.value
  }

  ghost predicate Orderly(c: Config, s: State, es: seq<Event>) {
    forall i :: 0 <= i < |es| ==> !Overgrants(Run(c, s, es[..i]), es[i])
  }

  lemma PrefixShift(c: Config, s: State, es: seq<Event>, i: nat)
    requires i < |es|
    ensures Run(c, s, es[..i + 1]) == Run(c, Step(c, s, es[0]), es[1..][..i])
  {
    assert es[..i + 1][0] == es[0] && es[..i + 1][1..] == es[1..][..i];
  }

  lemma WithinShift(c: Config, s: State, es: seq<Event>)
    requires es != [] && c.limit.Some? && s.active <= c.limit.value
    ensures Within(c, s, es) <==> Within(c, Step(c, s, es[0]), es[1..])
  {
    var t, tail := Step(c, s, es[0]), es[1..];
    if Within(c, s, es) {
      forall i | 0 <= i <= |tail|
        ensures Run(c, t, tail[..i]).active <= c.limit.value
      {
        PrefixShift(c, s, es, i);
        assert Run(c, s, es[..i + 1]).active <= c.limit.value;
      }
    }
    if Within(c, t, tail) {
      forall i | 0 <= i <= |es|
        ensures Run(c, s, es[..i]).active <= c.limit.value
      {
        if i > 0 {
          PrefixShift(c, s, es, i - 1);
        }
      }
    }
  }

  lemma OrderlyShift(c: Config, s: State, es: seq<Event>)
    requires es != []
    ensures Orderly(c, s, es) <==> !Overgrants(s, es[0]) && Orderly(c, Step(c, s, es[0]), es[1..])
  {
    var t, tail := Step(c, s, es[0]), es[1..];
    assert Run(c, s, es[..0]) == s;
    if Orderly(c, s, es) {
      forall i | 0 <= i < |tail|
        ensures !Overgrants(Run(c, t, tail[..i]), tail[i])
      {
        PrefixShift(c, s, es, i);
        assert !Overgrants(Run(c, s, es[..i + 1]), es[i + 1]);
      }
    }
    if !Overgrants(s, es[0]) && Orderly(c, t, tail) {
      forall i | 0 <= i < |es|
        ensures !Overgrants(Run(c, s, es[..i]), es[i])
      {
        if i > 0 {
          PrefixShift(c, s, es, i - 1);
          assert tail[i - 1] == es[i];
        }
      }
    }
  }

  /** `max_concurrency` is respected throughout a run exactly when no waiting root
      of the run is finished while another one waits. */
  lemma {:induction false} LimitHolds(c: Config, s: State, es: seq<Event>)
    requires Accepted(c) && Inv(c, s) && c.limit.Some? && s.active <= c.limit.value
    ensures Within(c, s, es) <==> Orderly(c, s, es)
    decreases |es|
  {
    if es != [] {
      var t := Step(c, s, es[0]);
      StepKeepsInv(c, s, es[0]);
      StepExceeds(c, s, es[0]);
      WithinShift(c, s, es);
      OrderlyShift(c, s, es);
      if t.active <= c.limit.value {
        LimitHolds(c, t, es[1..]);
      } else {
        assert Run(c, t, es[1..][..0]) == t;
      }
    }
  }

  /** Limit 1, three roots: finishing the second while it waits runs the third
      beside the first. */
  lemma Overgranted()
    ensures var s := Run(Config(Some(1), None), NEW, [Admit, Admit, Admit, Finish(1)]);
            s.active == 2 && s.held == {0, 2} && s.waiting == []
  {
    var c := Config(Some(1), None);
    var s1 := Step(c, NEW, Admit);
    var s2 := Step(c, s1, Admit);
    var s3 := Step(c, s2, Admit);
    assert s3.waiting == [1, 2] && Without([1, 2], 1) == [2];
    assert Run(c, s3, [Finish(1)]) == Run(c, Step(c, s3, Finish(1)), []);
    assert Run(c, s2, [Admit, Finish(1)]) == Run(c, s3, [Finish(1)]);
    assert Run(c, s1, [Admit, Admit, Finish(1)]) == Run(c, s2, [Admit, Finish(1)]);
  }

  // ---------------------------------------------------------------- progress

  predicate Ends(s: State, e: Event) {
    e.Finish? && (e.root in s.held || e.root in s.waiting)
  }

  function Finishes(c: Config, s: State, es: seq<Event>): nat
    decreases |es|
  {
    if es == [] then 0
    else (if Ends(s, es[0]) then 1 else 0) + Finishes(c, Step(c, s, es[0]), es[1..])
  }

  lemma {:induction false} GoneForGood(c: Config, s: State, es: seq<Event>, w: nat)
    requires Accepted(c) && Inv(c, s) && w !in s.waiting && w < s.next
    ensures w !in Run(c, s, es).waiting
    decreases |es|
  {
    if es != [] {
      StepKeepsInv(c, s, es[0]);
      IncreasingParts(s.granted, s.waiting);
      if es[0].Finish? {
        WithoutKeeps(s.waiting, es[0].root);
      }
      GoneForGood(c, Step(c, s, es[0]), es[1..], w);
    }
  }

  /** Any finish moves every waiter up by at least one place. */
  lemma MovesUp(c: Config, s: State, e: Event, k: nat)
    requires Accepted(c) && Inv(c, s) && k < |s.waiting| && Ends(s, e) && s.waiting[k] in Step(c, s, e).waiting
    ensures exists j :: 0 <= j < k && j < |Step(c, s, e).waiting| && Step(c, s, e).waiting[j] == s.waiting[k]
  {
    var t := Step(c, s, e);
    var w := s.waiting[k];
    IncreasingParts(s.granted, s.waiting);
    if e.root in s.held {
      assert s.active > 0;
      assert t.waiting == s.waiting[1..];
      assert forall i :: 1 <= i < |s.waiting| ==> s.waiting[i] != s.waiting[0];
      assert k > 0;
      assert t.waiting[k - 1] == w;
    } else {
      WithoutKeeps(s.waiting, e.root);
      var rest := Without(s.waiting, e.root);
      assert rest != [] ==> t.waiting == rest[1..];
      assert forall y <- t.waiting :: y in rest;
      assert w != e.root;
      WithoutAt(s.waiting, e.root, k);
      var j := if e.root < w then k - 1 else k;
      assert rest[j] == w;
      assert forall i :: 1 <= i < |rest| ==> rest[i] != rest[0];
      assert j > 0;
      assert t.waiting[j - 1] == w;
    }
  }

  lemma Stays(c: Config, s: State, e: Event, k: nat)
    requires Accepted(c) && Inv(c, s) && k < |s.waiting| && !Ends(s, e)
    ensures k < |Step(c, s, e).waiting| && Step(c, s, e).waiting[k] == s.waiting[k]
  {
  }

  /** A waiter at position k is gone after k + 1 finishes, whatever else happens. */
  lemma {:induction false} WaiterLeaves(c: Config, s: State, es: seq<Event>, k: nat)
    requires Accepted(c) && Inv(c, s) && k < |s.waiting| && Finishes(c, s, es) >= k + 1
    ensures s.waiting[k] !in Run(c, s, es).waiting
    decreases |es|
  {
    var w := s.waiting[k];
    var t := Step(c, s, es[0]);
    StepKeepsInv(c, s, es[0]);
    assert w in s.granted + s.waiting;
    if !Ends(s, es[0]) {
      Stays(c, s, es[0], k);
      WaiterLeaves(c, t, es[1..], k);
    } else if w in t.waiting {
      MovesUp(c, s, es[0], k);
      var j :| 0 <= j < k && j < |t.waiting| && t.waiting[j] == w;
      WaiterLeaves(c, t, es[1..], j);
    } else {
      GoneForGood(c, t, es[1..], w);
    }
  }

  // --------------------------------------------------- what each event does

  lemma {:induction false} WithoutIndex(q: seq<nat>, i: nat)
    requires i < |q| && Increasing(q)
    ensures Without(q, q[i]) == q[..i] + q[i + 1..]
  {
    if i > 0 {
      WithoutIndex(q[1..], i - 1);
      assert [q[0]] + (q[1..][..i - 1] + q[1..][i..]) == q[..i] + q[i + 1..];
    }
  }

  /** An arrival is granted below the limit, refused at the queue's bound, and waits
      last in the queue otherwise. */
  lemma {:induction false} AdmitDoes(c: Config, s: State)
    ensures var t := Step(c, s, Admit);
            if c.limit.None? || s.active < c.limit.value
            then t == s.(active := s.active + 1, held := s.held + {s.next}, granted := s.granted + [s.next], next := s.next + 1)
            else if c.maxPending.Some? && |s.waiting| >= c.maxPending.value then t == s
            else t == s.(waiting := s.waiting + [s.next], next := s.next + 1)
  {
  }

  /** From a queue without the finished root, the head is granted. */
  ghost predicate HeadGranted(q: seq<nat>, active: int, held: set<nat>, granted: seq<nat>, t: State) {
    if q == [] then t.waiting == [] && t.active == active && t.held == held && t.granted == granted
    else t.waiting == q[1..] && t.active == active + 1 && t.held == held + {q[0]} && t.granted == granted + [q[0]]
  }

  /** A holder gives its permit back, and the head comes in. */
  lemma {:induction false} HolderFinishDoes(c: Config, s: State, r: nat)
    requires Inv(c, s) && r in s.held
    ensures var t := Step(c, s, Finish(r));
            HeadGranted(s.waiting, s.active - 1, s.held - {r}, s.granted, t) && t.early == s.early && t.next == s.next
  {
    FinishHeldKeeps(c, s, r);
  }

  /** A waiter gives its place up, and the head of those left comes in; any other
      root changes nothing. */
  lemma {:induction false} WaiterFinishDoes(c: Config, s: State, i: nat)
    requires Inv(c, s) && i < |s.waiting|
    ensures var t := Step(c, s, Finish(s.waiting[i]));
            && HeadGranted(s.waiting[..i] + s.waiting[i + 1..], s.active, s.held, s.granted, t)
            && t.early == s.early + [s.waiting[i]] && t.next == s.next
    ensures forall r :: r !in s.held && r !in s.waiting ==> Step(c, s, Finish(r)) == s
  {
    IncreasingParts(s.granted, s.waiting);
    WithoutIndex(s.waiting, i);
    assert s.waiting[i] in s.waiting && s.waiting[i] !in s.held;
  }
}
