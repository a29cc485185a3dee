/**
  The admission fields of Stage and the methods that update them.  `spec` is the
  model of the run so far; `Valid` ties the queue of admission objects to it.
 */
module RootAdmissions {
  import opened Common
  import Admission

  datatype Gate = Open | Resolved

  class RootAdmission {
    var gate: Option<Gate>
    var granted: bool
    ghost const root: nat

    constructor (gate: Option<Gate>, granted: bool, ghost root: nat)
      ensures this.gate == gate && this.granted == granted && this.root == root
    {
      this.gate, this.granted, this.root := gate, granted, root;
    }
  }

  datatype Refusal = Backpressure

  class Roots {
    const maxConcurrency: Option<nat>
    const maxPending: Option<nat>
    var activeRootCount: int
    var pendingAdmissions: seq<RootAdmission>
    ghost var spec: Admission.State
    /** The admissions handed out and not finished, by root. */
    ghost var issued: map<nat, RootAdmission>

    ghost function Bounds(): Admission.Config {
      Admission.Config(maxConcurrency, maxPending)
    }

    ghost predicate Queued(q: seq<RootAdmission>, waiting: seq<nat>)
      reads q
    {
      && |q| == |waiting|
      && forall i :: 0 <= i < |q| ==> q[i].root == waiting[i] && q[i].gate == Some(Open) && !q[i].granted
    }

    /** Every unfinished root has its admission: granted exactly when it holds a
        permit, and in its place in the queue while it waits. */
    ghost predicate Issued(issued: map<nat, RootAdmission>, held: set<nat>, q: seq<RootAdmission>, waiting: seq<nat>)
      reads issued.Values
    {
      && |q| == |waiting|
      && (forall r <- issued :: issued[r].root == r && (issued[r].granted <==> r in held) && (!issued[r].granted ==> r in waiting))
      && (forall i {:trigger q[i]} :: 0 <= i < |q| ==> waiting[i] in issued && q[i] == issued[waiting[i]])
    }

    /** The fields stand for the model's state. */
    ghost predicate Fields()
      reads this, pendingAdmissions, issued.Values
    {
      && activeRootCount == spec.active
      && Queued(pendingAdmissions, spec.waiting)
      && Issued(issued, spec.held, pendingAdmissions, spec.waiting)
    }

    ghost predicate Valid()
      reads this, pendingAdmissions, issued.Values
    {
      Fields() && Admission.Accepted(Bounds()) && Admission.Inv(Bounds(), spec)
    }

    constructor (maxConcurrency: Option<nat>, maxPending: Option<nat>)
      requires Admission.Accepted(Admission.Config(maxConcurrency, maxPending))
      ensures Valid() && spec == Admission.NEW && issued == map[] && Bounds() == Admission.Config(maxConcurrency, maxPending)
    {
      this.maxConcurrency, this.maxPending := maxConcurrency, maxPending;
      activeRootCount, pendingAdmissions := 0, [];
      spec, issued := Admission.NEW, map[];
    }

    /** `_admit_root_locked`.  Work nested in the same Stage needs no admission. */
    method AdmitRoot(nested: bool) returns (r: Result<Option<RootAdmission>, Refusal>)
      requires Valid()
      modifies this`activeRootCount, this`pendingAdmissions, this`spec, this`issued
      ensures Valid()
      ensures spec == if nested then old(spec) else Admission.Step(Bounds(), old(spec), Admission.Admit)
      ensures nested ==> r == Ok(None)
      ensures r.Err? <==> && !nested && maxConcurrency.Some? && old(activeRootCount) >= maxConcurrency.value
                          && maxPending.Some? && |old(pendingAdmissions)| >= maxPending.value
      ensures r.Ok? && !nested ==>
                r.value.Some? && fresh(r.value.value) && issued == old(issued)[old(spec.next) := r.value.value]
      ensures r.Ok? && !nested && (maxConcurrency.None? || old(activeRootCount) < maxConcurrency.value) ==>
                activeRootCount == old(activeRootCount) + 1 && pendingAdmissions == old(pendingAdmissions) && r.value.value.granted
      ensures r.Ok? && !nested && maxConcurrency.Some? && old(activeRootCount) >= maxConcurrency.value ==>
                activeRootCount == old(activeRootCount) && pendingAdmissions == old(pendingAdmissions) + [r.value.value] && !r.value.value.granted
      ensures nested || r.Err? ==> issued == old(issued)
    {
      if nested {
        return Ok(None);
      }
      Arrives(Bounds(), spec);
      if maxConcurrency.None? || activeRootCount < maxConcurrency.value {
        var immediate := AdmitNow();
        return Ok(Some(immediate));
      }
      if maxPending.Some? && |pendingAdmissions| >= maxPending.value {
        return Err(Backpressure);
      }
      var admission := AdmitLater();
      r := Ok(Some(admission));
    }

    method AdmitNow() returns (a: RootAdmission)
      requires Fields() && Admission.HasRoom(Bounds(), spec) && spec.next !in spec.held && spec.next !in spec.waiting
      modifies this`activeRootCount, this`spec, this`issued
      ensures Fields() && spec == Admission.Step(Bounds(), old(spec), Admission.Admit)
      ensures fresh(a) && issued == old(issued)[old(spec.next) := a] && a.granted && activeRootCount == old(activeRootCount) + 1
    {
      activeRootCount := activeRootCount + 1;
      a := new RootAdmission(None, true, spec.next);
      IssueHeld(spec.next, a);
      issued := issued[spec.next := a];
      spec := Admission.Step(Bounds(), spec, Admission.Admit);
    }

    method AdmitLater() returns (a: RootAdmission)
      requires Fields() && !Admission.HasRoom(Bounds(), spec) && !Admission.Rejects(Bounds(), spec)
      requires spec.next !in spec.held && spec.next !in spec.waiting
      modifies this`pendingAdmissions, this`spec, this`issued
      ensures Fields() && spec == Admission.Step(Bounds(), old(spec), Admission.Admit)
      ensures fresh(a) && issued == old(issued)[old(spec.next) := a] && !a.granted && pendingAdmissions == old(pendingAdmissions) + [a]
    {
      a := new RootAdmission(Some(Open), false, spec.next);
      IssueWaiting(spec.next, a);
      pendingAdmissions := pendingAdmissions + [a];
      issued := issued[spec.next := a];
      spec := Admission.Step(Bounds(), spec, Admission.Admit);
    }

    lemma IssueHeld(next: nat, a: RootAdmission)
      requires Issued(issued, spec.held, pendingAdmissions, spec.waiting) && next !in spec.held && next !in spec.waiting
      requires a.root == next && a.granted
      ensures Issued(issued[next := a], spec.held + {next}, pendingAdmissions, spec.waiting)
    {
      forall i | 0 <= i < |pendingAdmissions|
        ensures spec.waiting[i] in issued[next := a] && pendingAdmissions[i] == issued[next := a][spec.waiting[i]]
      {
        var b := pendingAdmissions[i];
        assert spec.waiting[i] in issued && b == issued[spec.waiting[i]] && spec.waiting[i] in spec.waiting;
      }
    }

    lemma IssueWaiting(next: nat, a: RootAdmission)
      requires Issued(issued, spec.held, pendingAdmissions, spec.waiting) && next !in spec.held && next !in spec.waiting
      requires a.root == next && !a.granted
      ensures Issued(issued[next := a], spec.held, pendingAdmissions + [a], spec.waiting + [next])
    {
      var q, waiting := pendingAdmissions + [a], spec.waiting + [next];
      forall i | 0 <= i < |q|
        ensures waiting[i] in issued[next := a] && q[i] == issued[next := a][waiting[i]]
      {
        assert i < |pendingAdmissions| ==> q[i] == pendingAdmissions[i] && waiting[i] == spec.waiting[i] && waiting[i] in spec.waiting;
      }
    }

    /** The loop of `_finish_admission`: past admissions whose gate is missing or
        resolved, to the first that can be granted. */
    method GrantNext() returns (ghost skipped: nat)
      requires forall i, j :: 0 <= i < j < |pendingAdmissions| ==> pendingAdmissions[i] != pendingAdmissions[j]
      modifies this`activeRootCount, this`pendingAdmissions, pendingAdmissions
      ensures skipped <= |old(pendingAdmissions)|
      ensures forall i :: 0 <= i < skipped ==> old(pendingAdmissions[i].gate) != Some(Open)
      ensures skipped == |old(pendingAdmissions)| ==> pendingAdmissions == [] && activeRootCount == old(activeRootCount)
      ensures skipped < |old(pendingAdmissions)| ==>
                var head := old(pendingAdmissions)[skipped];
                && old(head.gate) == Some(Open) && head.granted && head.gate == Some(Resolved)
                && pendingAdmissions == old(pendingAdmissions)[skipped + 1..]
                && activeRootCount == old(activeRootCount) + 1
      ensures forall a <- pendingAdmissions :: a.gate == old(a.gate) && a.granted == old(a.granted)
    {
      ghost var queue := pendingAdmissions;
      skipped := 0;
      while pendingAdmissions != []
        invariant skipped <= |queue| && pendingAdmissions == queue[skipped..]
        invariant activeRootCount == old(activeRootCount)
        invariant forall a <- queue :: a.gate == old(a.gate) && a.granted == old(a.granted)
        invariant forall i :: 0 <= i < skipped ==> queue[i].gate != Some(Open)
        decreases |pendingAdmissions|
      {
        var head := pendingAdmissions[0];
        assert head == queue[skipped] && head in queue;
        pendingAdmissions := pendingAdmissions[1..];
        if head.gate.None? || head.gate == Some(Resolved) {
          skipped := skipped + 1;
          continue;
        }
        assert head.gate.value.Open?;
        head.granted := true;
        activeRootCount := activeRootCount + 1;
        head.gate := Some(Resolved);
        break;
      }
    }

    method IndexOf(a: RootAdmission) returns (i: nat)
      ensures i <= |pendingAdmissions| && (i < |pendingAdmissions| ==> pendingAdmissions[i] == a)
      ensures i == |pendingAdmissions| ==> a !in pendingAdmissions
    {
      i := 0;
      while i < |pendingAdmissions| && pendingAdmissions[i] != a
        invariant i <= |pendingAdmissions|
        invariant forall j :: 0 <= j < i ==> pendingAdmissions[j] != a
      {
        i := i + 1;
      }
    }

    lemma QueuedWithout(q: seq<RootAdmission>, waiting: seq<nat>, i: nat)
      requires Queued(q, waiting) && i < |q|
      ensures Queued(q[..i] + q[i + 1..], waiting[..i] + waiting[i + 1..])
    {
    }

    /** `deque.remove`: the first occurrence leaves, if there is one. */
    method Remove(a: RootAdmission, ghost waiting: seq<nat>)
      requires Queued(pendingAdmissions, waiting) && Admission.Increasing(waiting)
      requires a.root in waiting ==> a in pendingAdmissions
      modifies this`pendingAdmissions
      ensures Queued(pendingAdmissions, Admission.Without(waiting, a.root))
      ensures forall b <- pendingAdmissions :: b in old(pendingAdmissions)
    {
      var i := IndexOf(a);
      if i < |pendingAdmissions| {
        Admission.WithoutIndex(waiting, i);
        QueuedWithout(pendingAdmissions, waiting, i);
        pendingAdmissions := pendingAdmissions[..i] + pendingAdmissions[i + 1..];
      }
    }

    /** With every gate in the queue open, the head is granted and no one else. */
    method GrantHead(ghost waiting: seq<nat>, ghost all: map<nat, RootAdmission>, ghost held: set<nat>)
      requires Queued(pendingAdmissions, waiting) && Admission.Increasing(waiting) && (forall r <- all :: all[r].root == r)
      modifies this`activeRootCount, this`pendingAdmissions, pendingAdmissions
      ensures Queued(pendingAdmissions, if waiting == [] then [] else waiting[1..])
      ensures pendingAdmissions == if waiting == [] then [] else old(pendingAdmissions)[1..]
      ensures activeRootCount == old(activeRootCount) + if waiting == [] then 0 else 1
      ensures waiting != [] ==> old(pendingAdmissions)[0].granted
      ensures forall r <- all :: waiting == [] || r != waiting[0] ==> all[r].granted == old(all[r].granted)
      ensures (forall r <- all :: old(all[r].granted) <==> r in held) && waiting != [] && waiting[0] in all && all[waiting[0]] == old(pendingAdmissions)[0] ==>
                forall r <- all :: all[r].granted <==> r in held + {waiting[0]}
    {
      assert forall i :: 0 <= i < |waiting| ==> pendingAdmissions[i].root == waiting[i];
      ghost var queue := pendingAdmissions;
      ghost var skipped := GrantNext();
      assert skipped == 0 by {
        assert waiting != [] ==> old(pendingAdmissions[0].gate) == Some(Open);
      }
      if waiting != [] {
        assert forall a <- queue[1..] :: a in queue;
      }
      forall r | r in all && (waiting == [] || r != waiting[0])
        ensures all[r].granted == old(all[r].granted)
      {
        assert all[r] in queue ==> all[r] in pendingAdmissions;
      }
    }

    /** `_finish_admission`, called once for every admission handed out. */
    method FinishAdmission(admission: Option<RootAdmission>)
      requires Valid()
      requires admission.Some? ==> admission.value.root in issued && issued[admission.value.root] == admission.value
      modifies this`activeRootCount, this`pendingAdmissions, this`spec, this`issued, pendingAdmissions
      ensures Valid()
      ensures spec == if admission.None? then old(spec)
                      else Admission.Step(Bounds(), old(spec), Admission.Finish(admission.value.root))
      ensures issued == if admission.None? then old(issued) else old(issued) - {admission.value.root}
    {
      if admission.None? {
        return;
      }
      Departs(Bounds(), spec, admission.value.root);
      Leave(admission.value);
      Grant();
    }

    method Leave(a: RootAdmission)
      requires Fields() && a.root in issued && issued[a.root] == a && Admission.Increasing(spec.waiting)
      requires a.root in spec.held ==> spec.active > 0 && a.root !in spec.waiting
      modifies this`activeRootCount, this`pendingAdmissions, this`spec, this`issued
      ensures Fields() && spec == Admission.Left(old(spec), a.root) && issued == old(issued) - {a.root}
      ensures forall b <- pendingAdmissions :: b in old(pendingAdmissions)
    {
      if a.granted {
        activeRootCount := activeRootCount - 1;
        DropHeld(a.root);
        spec := Admission.Left(spec, a.root);
        issued := issued - {a.root};
      } else {
        LeaveQueue(a);
      }
    }

    method LeaveQueue(a: RootAdmission)
      requires Fields() && a.root in issued && issued[a.root] == a && !a.granted && Admission.Increasing(spec.waiting)
      modifies this`pendingAdmissions, this`spec, this`issued
      ensures Fields() && spec == Admission.Left(old(spec), a.root) && issued == old(issued) - {a.root}
      ensures forall b <- pendingAdmissions :: b in old(pendingAdmissions)
    {
      ghost var q := pendingAdmissions;
      Remove(a, spec.waiting);
      Admission.WithoutKeeps(spec.waiting, a.root);
      DropWaiting(a.root, q, pendingAdmissions, Admission.Without(spec.waiting, a.root));
      spec := Admission.Left(spec, a.root);
      issued := issued - {a.root};
    }

    lemma DropHeld(r: nat)
      requires Issued(issued, spec.held, pendingAdmissions, spec.waiting) && r in spec.held && r !in spec.waiting
      ensures Issued(issued - {r}, spec.held - {r}, pendingAdmissions, spec.waiting)
    {
      forall i | 0 <= i < |pendingAdmissions|
        ensures spec.waiting[i] in (issued - {r}) && pendingAdmissions[i] == (issued - {r})[spec.waiting[i]]
      {
        var b := pendingAdmissions[i];
        assert spec.waiting[i] in issued && b == issued[spec.waiting[i]] && spec.waiting[i] in spec.waiting;
      }
    }

    lemma DropWaiting(r: nat, q: seq<RootAdmission>, q': seq<RootAdmission>, waiting: seq<nat>)
      requires Issued(issued, spec.held, q, spec.waiting) && r in spec.waiting && r !in spec.held
      requires Queued(q', waiting) && (forall b <- q' :: b in q)
      requires forall w :: w in waiting <==> w in spec.waiting && w != r
      ensures Issued(issued - {r}, spec.held, q', waiting)
    {
      forall i | 0 <= i < |q'|
        ensures waiting[i] in issued && q'[i] == issued[waiting[i]]
      {
        assert q'[i] in q && waiting[i] in waiting;
        var j :| 0 <= j < |q| && q[j] == q'[i];
        assert q[j] == issued[spec.waiting[j]] && q[j].root == spec.waiting[j];
      }
    }

    method Grant()
      requires Fields() && Admission.Increasing(spec.waiting)
      modifies this`activeRootCount, this`pendingAdmissions, this`spec, pendingAdmissions
      ensures Fields() && spec == Admission.GrantHead(old(spec))
    {
      if pendingAdmissions != [] {
        GrantFirst(spec.waiting, issued, spec.held);
        spec := Admission.GrantHead(spec);
      }
    }

    method GrantFirst(ghost waiting: seq<nat>, ghost all: map<nat, RootAdmission>, ghost held: set<nat>)
      requires Queued(pendingAdmissions, waiting) && Issued(all, held, pendingAdmissions, waiting)
      requires waiting != [] && Admission.Increasing(waiting)
      modifies this`activeRootCount, this`pendingAdmissions, pendingAdmissions
      ensures Queued(pendingAdmissions, waiting[1..]) && Issued(all, held + {waiting[0]}, pendingAdmissions, waiting[1..])
      ensures activeRootCount == old(activeRootCount) + 1
    {
      ghost var q := pendingAdmissions;
      assert q[0] == all[waiting[0]];
      GrantHead(waiting, all, held);
      HeadIsHeld(held, q, waiting, all);
    }

    /** The head of the queue, once granted, is one of the holders. */
    lemma HeadIsHeld(held: set<nat>, q: seq<RootAdmission>, waiting: seq<nat>, all: map<nat, RootAdmission>)
      requires waiting != [] && |q| == |waiting| && Admission.Increasing(waiting)
      requires forall i {:trigger q[i]} :: 0 <= i < |q| ==> waiting[i] in all && q[i] == all[waiting[i]]
      requires forall r <- all :: all[r].root == r && (all[r].granted <==> r in held + {waiting[0]})
      requires forall r <- all :: !all[r].granted ==> r in waiting
      ensures Issued(all, held + {waiting[0]}, q[1..], waiting[1..])
    {
      assert waiting == [waiting[0]] + waiting[1..];
      forall i | 0 <= i < |q[1..]|
        ensures waiting[1..][i] in all && q[1..][i] == all[waiting[1..][i]]
      {
        var b := q[i + 1];
        assert waiting[i + 1] in all && b == all[waiting[i + 1]];
      }
    }
  }

  lemma Arrives(c: Admission.Config, s: Admission.State)
    requires Admission.Accepted(c) && Admission.Inv(c, s)
    ensures Admission.Inv(c, Admission.Step(c, s, Admission.Admit)) && s.next !in s.held && s.next !in s.waiting
  {
    Admission.StepKeepsInv(c, s, Admission.Admit);
    assert s.next !in s.granted + s.waiting;
  }

  lemma Departs(c: Admission.Config, s: Admission.State, r: nat)
    requires Admission.Accepted(c) && Admission.Inv(c, s) && (r in s.held || r in s.waiting)
    ensures Admission.Step(c, s, Admission.Finish(r)) == Admission.GrantHead(Admission.Left(s, r))
    ensures Admission.Inv(c, Admission.Step(c, s, Admission.Finish(r)))
    ensures Admission.Increasing(s.waiting) && Admission.Increasing(Admission.Left(s, r).waiting)
    ensures r in s.held ==> s.active > 0 && r !in s.waiting
  {
    Admission.StepKeepsInv(c, s, Admission.Finish(r));
    Admission.IncreasingParts(s.granted, s.waiting);
    Admission.WithoutKeeps(s.waiting, r);
    if r in s.held {
      Admission.FinishHeldKeeps(c, s, r);
    }
  }

  // -------------------------------------------------------------- whole runs

  /** Every unfinished root has its admission. */
  ghost predicate Complete(keys: set<nat>, s: Admission.State) {
    forall r :: r in s.held || r in s.waiting ==> r in keys
  }

  lemma {:induction false} CompleteAdmit(c: Admission.Config, s: Admission.State, keys: set<nat>)
    requires Complete(keys, s)
    ensures Complete(keys + {s.next}, Admission.Step(c, s, Admission.Admit))
    ensures Admission.Rejects(c, s) ==> Admission.Step(c, s, Admission.Admit) == s
  {
  }

  lemma {:induction false} CompleteFinish(c: Admission.Config, s: Admission.State, r: nat, keys: set<nat>)
    requires Admission.Accepted(c) && Admission.Inv(c, s) && Complete(keys, s)
    ensures r !in keys ==> Admission.Step(c, s, Admission.Finish(r)) == s
    ensures r in s.held || r in s.waiting ==> Complete(keys - {r}, Admission.Step(c, s, Admission.Finish(r)))
  {
    if r in s.held || r in s.waiting {
      Departs(c, s, r);
      Admission.WithoutKeeps(s.waiting, r);
    }
  }

  method PerformAdmit(roots: Roots, c: Admission.Config, s: Admission.State, objs: map<nat, RootAdmission>)
    returns (now: map<nat, RootAdmission>)
    requires roots.Valid() && roots.Bounds() == c && roots.spec == s && roots.issued == objs && Complete(objs.Keys, s)
    modifies roots, roots.pendingAdmissions
    ensures roots.Valid() && roots.spec == Admission.Step(c, s, Admission.Admit) && roots.issued == now
    ensures Complete(now.Keys, roots.spec)
    ensures forall r <- now :: (r in objs && now[r] == objs[r]) || fresh(now[r])
  {
    CompleteAdmit(c, s, objs.Keys);
    now := objs;
    var r := roots.AdmitRoot(false);
    if r.Ok? {
      now := objs[s.next := r.value.value];
      assert now.Keys == objs.Keys + {s.next};
    }
  }

  method PerformFinish(roots: Roots, c: Admission.Config, s: Admission.State, objs: map<nat, RootAdmission>, r: nat)
    returns (now: map<nat, RootAdmission>)
    requires roots.Valid() && roots.Bounds() == c && roots.spec == s && roots.issued == objs && Complete(objs.Keys, s)
    modifies roots, roots.pendingAdmissions
    ensures roots.Valid() && roots.spec == Admission.Step(c, s, Admission.Finish(r)) && roots.issued == now
    ensures Complete(now.Keys, roots.spec)
    ensures forall k <- now :: k in objs && now[k] == objs[k]
  {
    CompleteFinish(c, s, r, objs.Keys);
    now := objs;
    if r in objs {
      roots.FinishAdmission(Some(objs[r]));
      now := objs - {r};
      assert now.Keys == objs.Keys - {r};
    }
  }

  /** Any arrivals and finishes on a new Stage leave its admission objects where the
      model says. */
  method Execute(limit: Option<nat>, maxPending: Option<nat>, es: seq<Admission.Event>) returns (roots: Roots)
    requires Admission.Accepted(Admission.Config(limit, maxPending))
    ensures fresh(roots) && roots.Valid() && roots.spec == Admission.Run(Admission.Config(limit, maxPending), Admission.NEW, es)
  {
    var c := Admission.Config(limit, maxPending);
    roots := new Roots(limit, maxPending);
    var s, objs := Admission.NEW, map[];
    for k := 0 to |es|
      invariant fresh(roots) && roots.Valid() && roots.Bounds() == c && roots.spec == s && roots.issued == objs
      invariant Complete(objs.Keys, s) && (forall r <- objs :: fresh(objs[r]))
      invariant s == Admission.Run(c, Admission.NEW, es[..k])
    {
      assert es[..k + 1] == es[..k] + [es[k]];
      Admission.RunSnoc(c, Admission.NEW, es[..k], es[k]);
      match es[k] {
        case Admit => objs := PerformAdmit(roots, c, s, objs);
        case Finish(r) => objs := PerformFinish(roots, c, s, objs, r);
      }
      s := Admission.Step(c, s, es[k]);
    }
    assert es[..|es|] == es;
  }
}
