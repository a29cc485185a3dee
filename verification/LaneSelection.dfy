/**
  Which lane a new epoch is given: least pressure first, then the first one at
  or after the rotating cursor.
 */
module LaneSelection {
  import opened Common
  import Division

  /** A lane as `_select_slot` reads it; `excluded` if it owns a blocked
      generation or the running loop. */
  datatype Lane = Lane(pressure: nat, excluded: bool)

  /** Places from the cursor to lane `i`, going round; see `GoingRound`. */
  function Distance(i: nat, cursor: nat, n: nat): nat
    requires i < n && cursor < n
  {
    if i >= cursor then i - cursor else i - cursor + n
  }

  function Next(i: nat, n: nat): nat
    requires i < n
  {
    if i + 1 < n then i + 1 else 0
  }

  /** The source writes both with the remainder, which never is negative there. */
  lemma GoingRound(i: nat, cursor: nat, n: nat)
    requires i < n && cursor < n
    ensures Distance(i, cursor, n) == (i - cursor) % n
    ensures Next(i, n) == (i + 1) % n
  {
    if i < cursor {
      Division.Unique(i - cursor, n, -1, i - cursor + n);
    } else {
      Division.Unique(i - cursor, n, 0, i - cursor);
    }
    if i + 1 == n {
      Division.Unique(n, n, 1, 0);
    } else {
      Division.Unique(i + 1, n, 0, i + 1);
    }
  }

  predicate Before(p: nat, d: nat, q: nat, e: nat) {
    p < q || (p == q && d < e)
  }

  /** `k` is the lane the selector must take. */
  ghost predicate IsBest(lanes: seq<Lane>, cursor: nat, k: nat)
    requires cursor < |lanes|
  {
    && k < |lanes| && !lanes[k].excluded
    && forall j :: 0 <= j < |lanes| && j != k && !lanes[j].excluded ==>
                     Before(lanes[k].pressure, Distance(k, cursor, |lanes|), lanes[j].pressure, Distance(j, cursor, |lanes|))
  }

  lemma BestIsUnique(lanes: seq<Lane>, cursor: nat, k: nat, l: nat)
    requires cursor < |lanes| && IsBest(lanes, cursor, k) && IsBest(lanes, cursor, l)
    ensures k == l
  {
  }

  datatype Candidate = Candidate(pressure: nat, distance: nat, lane: nat)

  /** `_select_slot`: collect the eligible lanes, then take the least. */
  method SelectSlot(lanes: seq<Lane>, cursor: nat) returns (selected: Option<nat>, next: nat)
    requires cursor < |lanes|
    ensures next < |lanes|
    ensures selected.None? <==> forall k :: 0 <= k < |lanes| ==> lanes[k].excluded
    ensures selected.None? ==> next == cursor
    ensures selected.Some? ==> IsBest(lanes, cursor, selected.value) && next == (selected.value + 1) % |lanes|
  {
    var n := |lanes|;
    var candidates: seq<Candidate> := [];
    ghost var at: map<nat, nat> := map[];
    for i := 0 to n
      invariant forall c <- candidates :: c.lane < i && !lanes[c.lane].excluded && c == Candidate(lanes[c.lane].pressure, Distance(c.lane, cursor, n), c.lane)
      invariant forall k :: 0 <= k < i && !lanes[k].excluded ==> k in at && at[k] < |candidates| && candidates[at[k]].lane == k
    {
      if lanes[i].excluded {
        continue;
      }
      at := at[i := |candidates|];
      GoingRound(i, cursor, n);
      candidates := candidates + [Candidate(lanes[i].pressure, (i - cursor) % n, i)];
    }
    if candidates == [] {
      return None, cursor;
    }
    var best := candidates[0];
    for i := 1 to |candidates|
      invariant best in candidates
      invariant forall j :: 0 <= j < i ==> !Before(candidates[j].pressure, candidates[j].distance, best.pressure, best.distance)
    {
      if Before(candidates[i].pressure, candidates[i].distance, best.pressure, best.distance) {
        best := candidates[i];
      }
    }
    forall j | 0 <= j < n && j != best.lane && !lanes[j].excluded
      ensures Before(best.pressure, best.distance, lanes[j].pressure, Distance(j, cursor, n))
    {
      assert candidates[at[j]] == Candidate(lanes[j].pressure, Distance(j, cursor, n), j);
    }
    GoingRound(best.lane, cursor, n);
    return Some(best.lane), (best.lane + 1) % n;
  }

  // ------------------------------------------------- sequences of leases

  /** Lane loads and the cursor; nothing is excluded and nothing is released. */
  datatype Load = Load(pressures: seq<nat>, cursor: nat)

  ghost predicate LoadOk(s: Load) {
    s.cursor < |s.pressures|
  }

  function Lanes(s: Load): (r: seq<Lane>)
    ensures |r| == |s.pressures|
  {
    seq(|s.pressures|, i requires 0 <= i < |s.pressures| => Lane(s.pressures[i], false))
  }

  /** Lease after lease, each on the lane the selector takes: `picks[i]` is the
      lane of lease `i` and `loads[i]` the load it finds. */
  ghost predicate LeaseRun(loads: seq<Load>, picks: seq<nat>) {
    && |loads| == |picks| + 1
    && (forall i :: 0 <= i < |loads| ==> LoadOk(loads[i]))
    && (forall i :: 0 <= i < |picks| ==> LeaseStep(loads[i], picks[i], loads[i + 1]))
  }

  ghost predicate LeaseStep(s: Load, k: nat, t: Load)
    requires LoadOk(s)
  {
    && IsBest(Lanes(s), s.cursor, k)
    && t == Load(s.pressures[k := s.pressures[k] + 1], Next(k, |s.pressures|))
  }

  ghost predicate Balanced(s: Load) {
    forall i, j :: 0 <= i < |s.pressures| && 0 <= j < |s.pressures| ==> s.pressures[i] <= s.pressures[j] + 1
  }

  lemma LeaseKeepsBalance(s: Load, k: nat, t: Load)
    requires LoadOk(s) && LeaseStep(s, k, t) && Balanced(s)
    ensures Balanced(t)
  {
    assert forall j :: 0 <= j < |s.pressures| ==> Lanes(s)[j].pressure == s.pressures[j] && s.pressures[k] <= s.pressures[j];
  }

  /** Any number of unreleased leases leaves the lane pressures within one of each other. */
  lemma {:induction false} LeasesKeepBalance(loads: seq<Load>, picks: seq<nat>)
    requires LeaseRun(loads, picks) && Balanced(loads[0])
    ensures Balanced(loads[|picks|])
    decreases |picks|
  {
    var n := |picks|;
    if n > 0 {
      LeasesKeepBalance(loads[..n], picks[..n - 1]);
      LeaseKeepsBalance(loads[n - 1], picks[n - 1], loads[n - 1 + 1]);
    }
  }

  /** Index of the lane `r` places after `c`. */
  function After(c: nat, r: nat, n: nat): nat
    requires c < n && r < n
  {
    if c + r < n then c + r else c + r - n
  }

  /** `w` whole rounds of leases on lanes of equal pressure `q`, cursor at `c`,
      and `r` leases of the next round. */
  ghost predicate Rotated(s: Load, q: nat, c: nat, w: nat, r: nat) {
    && c < |s.pressures| && r < |s.pressures|
    && s.cursor == After(c, r, |s.pressures|)
    && forall i :: 0 <= i < |s.pressures| ==> s.pressures[i] == q + w + (if Distance(i, c, |s.pressures|) < r then 1 else 0)
  }

  lemma RotatedStep(s: Load, q: nat, c: nat, w: nat, r: nat, k: nat, t: Load)
    requires LoadOk(s) && Rotated(s, q, c, w, r) && LeaseStep(s, k, t)
    ensures k == s.cursor
    ensures if r + 1 < |s.pressures| then Rotated(t, q, c, w, r + 1) else Rotated(t, q, c, w + 1, 0)
  {
    var n, u := |s.pressures|, s.cursor;
    CursorIsBest(s, q, c, w, r);
    BestIsUnique(Lanes(s), u, k, u);
    assert forall i :: 0 <= i < n ==> Distance(i, c, n) < n && (Distance(i, c, n) == r <==> i == u);
  }

  lemma CursorIsBest(s: Load, q: nat, c: nat, w: nat, r: nat)
    requires LoadOk(s) && Rotated(s, q, c, w, r)
    ensures IsBest(Lanes(s), s.cursor, s.cursor)
  {
    assert Distance(s.cursor, c, |s.pressures|) == r;
  }

  lemma {:induction false} LoadAfter(loads: seq<Load>, picks: seq<nat>, q: nat, m: nat)
    requires LeaseRun(loads, picks) && (forall i :: 0 <= i < |loads[0].pressures| ==> loads[0].pressures[i] == q) && m <= |picks|
    ensures var n := |loads[0].pressures|; n > 0 && |loads[m].pressures| == n && Rotated(loads[m], q, loads[0].cursor, m / n, m % n)
    decreases m
  {
    var n := |loads[0].pressures|;
    Division.Split(m, n);
    if m == 0 {
      Division.Unique(0, n, 0, 0);
    } else {
      Division.Split(m - 1, n);
      LoadAfter(loads, picks, q, m - 1);
      assert LeaseStep(loads[m - 1], picks[m - 1], loads[m - 1 + 1]);
      RotatedStep(loads[m - 1], q, loads[0].cursor, (m - 1) / n, (m - 1) % n, picks[m - 1], loads[m]);
      Division.Successor(m - 1, n);
    }
  }

  /** From equal pressures lease `i` goes to the lane `i` places after the cursor,
      going round: `n` consecutive leases visit each of the `n` lanes once. */
  lemma LeasesRotate(loads: seq<Load>, picks: seq<nat>, q: nat, i: nat)
    requires LeaseRun(loads, picks) && (forall j :: 0 <= j < |loads[0].pressures| ==> loads[0].pressures[j] == q) && i < |picks|
    ensures var n := |loads[0].pressures|; n > 0 && picks[i] == After(loads[0].cursor, i % n, n)
  {
    var n := |loads[0].pressures|;
    LoadAfter(loads, picks, q, i);
    Division.Split(i, n);
    var s, w, r := loads[i], i / n, i % n;
    assert LeaseStep(s, picks[i], loads[i + 1]);
    CursorIsBest(s, q, loads[0].cursor, w, r);
    BestIsUnique(Lanes(s), s.cursor, picks[i], s.cursor);
  }

  lemma EachLaneOnce(c: nat, n: nat, a: nat, b: nat)
    requires c < n && a < b < n
    ensures After(c, a, n) != After(c, b, n)
  {
  }

  // --------------------------------------------------------- resizing the pool

  /** The configured lanes of `_RuntimeCarrier`, by slot id. */
  class RuntimeCarrier {
    var slots: seq<nat>
    var slotCounter: nat
    var cursor: nat
    var loopCount: nat
    var frozen: bool

    ghost predicate Valid()
      reads this
    {
      && |slots| == loopCount > 0 && cursor < loopCount
      && (forall i :: 0 <= i < |slots| ==> slots[i] <= slotCounter)
      && NoDup(slots)
    }

    constructor ()
      ensures Valid() && slots == [1] && cursor == 0 && loopCount == 1 && !frozen
    {
      slots, slotCounter, cursor, loopCount, frozen := [1], 1, 0, 1, false;
    }

    /** `set_carrier_loop_count`: lanes are added or retired at the end, surviving
        lanes keep their place, retired ids never come back, and the cursor stays
        in range.  A frozen pool accepts only its present size. */
    method SetCarrierLoopCount(count: nat) returns (r: Result<seq<nat>, ()>)
      requires Valid() && count > 0
      modifies this
      ensures Valid() && frozen == old(frozen) && slotCounter >= old(slotCounter)
      ensures r.Err? <==> frozen && count != old(loopCount)
      ensures frozen ==> slots == old(slots) && cursor == old(cursor) && loopCount == old(loopCount) && slotCounter == old(slotCounter) && (r.Ok? ==> r.value == [])
      ensures !frozen ==> loopCount == count && cursor == old(cursor) % count
      ensures !frozen && count <= old(loopCount) ==> slots == old(slots)[..count] && |r.value| == old(loopCount) - count && (forall i :: 0 <= i < |r.value| ==> r.value[i] == old(slots)[old(loopCount) - 1 - i])
      ensures !frozen && count > old(loopCount) ==> r.value == [] && slots[..old(loopCount)] == old(slots) && (forall i :: old(loopCount) <= i < count ==> slots[i] > old(slotCounter))
    {
      if frozen {
        if count == loopCount {
          return Ok([]);
        }
        return Err(());
      }
      var retired: seq<nat> := [];
      ghost var n := |slots|;
      while |slots| < count
        invariant n <= |slots| && (n < count ==> |slots| <= count) && (n >= count ==> |slots| == n)
        invariant slots[..n] == old(slots) && slotCounter >= old(slotCounter)
        invariant forall i :: 0 <= i < |slots| ==> slots[i] <= slotCounter
        invariant forall i :: n <= i < |slots| ==> slots[i] > old(slotCounter)
        invariant NoDup(slots)
        invariant !frozen && cursor == old(cursor)
      {
        slotCounter := slotCounter + 1;
        slots := slots + [slotCounter];
      }
      while |slots| > count
        invariant |slots| >= count && (n < count ==> |slots| == count && retired == [])
        invariant n >= count ==> |slots| + |retired| == n && slots == old(slots)[..|slots|]
        invariant forall i :: 0 <= i < |retired| ==> retired[i] == old(slots)[n - 1 - i]
        invariant n < count ==> slots[..n] == old(slots) && (forall i :: n <= i < count ==> slots[i] > old(slotCounter))
        invariant forall i :: 0 <= i < |slots| ==> slots[i] <= slotCounter
        invariant NoDup(slots)
        invariant !frozen && cursor == old(cursor) && slotCounter >= old(slotCounter)
      {
        retired := retired + [slots[|slots| - 1]];
        slots := slots[..|slots| - 1];
      }
      loopCount := count;
      cursor := cursor % count;
      r := Ok(retired);
    }

    /** Selecting freezes the settings; the cursor moves past the selected lane. */
    method Select(lanes: seq<Lane>) returns (selected: Option<nat>)
      requires Valid() && |lanes| == |slots|
      modifies this
      ensures Valid() && frozen && slots == old(slots) && loopCount == old(loopCount) && slotCounter == old(slotCounter)
      ensures selected.None? <==> forall k :: 0 <= k < |lanes| ==> lanes[k].excluded
      ensures selected.None? ==> cursor == old(cursor)
      ensures selected.Some? ==> IsBest(lanes, old(cursor), selected.value) && cursor == (selected.value + 1) % loopCount
    {
      frozen := true;
      selected, cursor := SelectSlot(lanes, cursor);
    }
  }
}
