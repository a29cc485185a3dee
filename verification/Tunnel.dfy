/**
  `Tunnel` and `TunnelSubscription` with the fields they update, each critical
  section proved to be the step of the replay model.  `spec` is the model of the run
  so far: it knows every subscription of the channel.
 */
module Tunnels {
  import opened Common
  import opened Replay
  import Wake

  class Tunnel<T> {
    const limit: Option<nat>
    const grouped: bool
    var items: seq<T>
    var baseSequence: nat
    var nextSequence: nat
    var closed: bool
    var failure: Option<nat>
    var waiters: set<Wake.Waiter>
    ghost var spec: State<T>

    ghost function View(): Channel<T>
      reads this
    {
      Channel(items, baseSequence, nextSequence, closed, failure, limit)
    }

    /** Waiters are registered with futures of their own. */
    ghost predicate Valid()
      reads this
    {
      && View() == spec.ch && Wake.Distinct(waiters)
      && (forall f :: f in spec.parked <==> exists w <- waiters :: w.future == f)
    }

    constructor (limit: Option<nat>, grouped: bool)
      requires limit.Some? ==> limit.value > 0
      ensures Valid() && spec == Replay.Init<T>(limit) && waiters == {} && this.grouped == grouped
    {
      this.limit, this.grouped := limit, grouped;
      items, baseSequence, nextSequence, closed, failure, waiters := [], 0, 0, false, None, {};
      spec := Replay.Init<T>(limit);
    }

    /** `_wake_waiters_locked`: every waiter is taken off, and those whose loop is
        open are resolved by the calls scheduled. */
    method WakeWaiters(open: set<nat>) returns (calls: seq<Wake.Callback>)
      requires Wake.Distinct(waiters)
      modifies this`waiters
      ensures waiters == {} && Wake.Delivers(calls, old(waiters), open)
    {
      var taken := waiters;
      waiters := {};
      if grouped {
        calls := Wake.WakeGrouped(taken, open);
      } else {
        calls := Wake.WakeIndividual(taken, open);
      }
    }

    method Put(data: T, open: set<nat>) returns (r: Result<seq<Wake.Callback>, ()>)
      requires Valid()
      modifies this
      ensures Valid() && spec == Step(old(spec), Replay.Put(data))
      ensures r.Err? <==> old(closed) || old(failure).Some?
      ensures if r.Err? then waiters == old(waiters) else waiters == {} && Wake.Delivers(r.value, old(waiters), open)
    {
      if closed || failure.Some? {
        return Err(());
      }
      items := items + [data];
      nextSequence := nextSequence + 1;
      if limit.Some? && |items| > limit.value {
        items := items[1..];
        baseSequence := baseSequence + 1;
      }
      spec := Step(spec, Replay.Put(data));
      var calls := WakeWaiters(open);
      r := Ok(calls);
    }

    method Close(open: set<nat>) returns (calls: seq<Wake.Callback>)
      requires Valid()
      modifies this
      ensures Valid() && spec == Step(old(spec), Replay.Close)
      ensures if Terminal(old(View())) then calls == [] && waiters == old(waiters)
              else waiters == {} && Wake.Delivers(calls, old(waiters), open)
    {
      if closed || failure.Some? {
        return [];
      }
      closed := true;
      spec := Step(spec, Replay.Close);
      calls := WakeWaiters(open);
    }

    method Fail(error: nat, open: set<nat>) returns (calls: seq<Wake.Callback>)
      requires Valid()
      modifies this
      ensures Valid() && spec == Step(old(spec), Replay.Fail(error))
      ensures if Terminal(old(View())) then calls == [] && waiters == old(waiters)
              else waiters == {} && Wake.Delivers(calls, old(waiters), open)
    {
      if closed || failure.Some? {
        return [];
      }
      failure := Some(error);
      spec := Step(spec, Replay.Fail(error));
      calls := WakeWaiters(open);
    }

    /** The end of `__anext__`: the waiter is taken off if it is still there. */
    method Discard(waiter: Wake.Waiter)
      requires Valid() && (waiter in waiters || waiter.future !in spec.parked)
      modifies this`waiters, this`spec
      ensures Valid() && waiters == old(waiters) - {waiter} && spec == Step(old(spec), Replay.Discard(waiter.future))
    {
      waiters := waiters - {waiter};
      spec := Step(spec, Replay.Discard(waiter.future));
    }

    method Subscribe(start: Start, ghost id: nat) returns (r: Result<TunnelSubscription<T>, ()>)
      requires Valid() && id !in spec.readers
      modifies this`spec
      ensures Valid() && spec == Step(old(spec), Replay.Subscribe(id, start))
      ensures r.Ok? <==> (start.At? ==> 0 <= start.sequence <= nextSequence)
      ensures r.Ok? ==> r.value.cursor == match start case Earliest => baseSequence case Latest => nextSequence case At(n) => n
      ensures r.Ok? ==> fresh(r.value) && r.value.tunnel == this && r.value.id == id && r.value.Valid()
    {
      var cursor: nat;
      match start {
        case Earliest => cursor := baseSequence;
        case Latest => cursor := nextSequence;
        case At(n) =>
          if n < 0 || n > nextSequence {
            return Err(());
          }
          cursor := n;
      }
      var s := new TunnelSubscription<T>(this, cursor, id);
      spec := Step(spec, Replay.Subscribe(id, start));
      r := Ok(s);
    }

    /** `get` with no one else at work: `list` over a new subscription, which stops at
        the channel's end or, where it would have to wait, when its timeout is over. */
    method Get(ghost id: nat) returns (values: seq<T>, last: Outcome<T>)
      requires Valid() && id !in spec.readers
      modifies this`spec
      ensures Valid() && values == items
      ensures last == if failure.Some? then Error(failure.value) else if closed then Stop else Block
      ensures id in spec.readers && spec.readers[id].end.Some? && spec.readers[id].received == items
    {
      var r := Subscribe(Earliest, id);
      values, last := ReadAll(r.value);
    }

    /** Read until the channel's end, or until a read would have to wait. */
    method ReadAll(s: TunnelSubscription<T>) returns (values: seq<T>, last: Outcome<T>)
      requires s.tunnel == this && s.Valid() && !s.terminated && s.cursor == baseSequence && spec.readers[s.id].received == []
      modifies this`spec, s
      ensures Valid() && values == items && s.id in spec.readers
      ensures last == if failure.Some? then Error(failure.value) else if closed then Stop else Block
      ensures spec.readers[s.id].end.Some? && spec.readers[s.id].received == items
    {
      values, last := [], Block;
      var going := true;
      while going
        invariant s.Valid() && View() == old(View()) && waiters == old(waiters)
        invariant s.cursor == baseSequence + |values| && |values| <= |items| && values == items[..|values|]
        invariant spec.readers[s.id].received == values && (going <==> !s.terminated)
        invariant !going ==> |values| == |items| && last == if failure.Some? then Error(failure.value) else if closed then Stop else Block
        decreases |items| - |values|, going
      {
        last := s.Next();
        if last.Item? {
          assert items[..|values| + 1] == items[..|values|] + [items[|values|]];
          values := values + [last.value];
        } else {
          if last.Block? {
            s.TimeOut();
          }
          going := false;
        }
      }
    }
  }

  class TunnelSubscription<T> {
    const tunnel: Tunnel<T>
    ghost const id: nat
    var cursor: nat
    var terminated: bool

    /** The model's reader of this subscription agrees with its fields. */
    ghost predicate Valid()
      reads this, tunnel
    {
      && tunnel.Valid() && id in tunnel.spec.readers
      && tunnel.spec.readers[id].cursor == cursor
      && (tunnel.spec.readers[id].end.Some? <==> terminated)
    }

    constructor (tunnel: Tunnel<T>, cursor: nat, ghost id: nat)
      ensures this.tunnel == tunnel && this.cursor == cursor && this.id == id && !terminated
    {
      this.tunnel, this.cursor, this.id, terminated := tunnel, cursor, id, false;
    }

    /** One pass through the critical section shared by `__next__` and `__anext__`. */
    method Pass() returns (o: Outcome<T>)
      modifies this
      ensures o == Attempt(tunnel.View(), old(cursor), old(terminated))
      ensures cursor == old(cursor) + (if o.Item? then 1 else 0)
      ensures terminated <==> old(terminated) || o.Lag? || o.Error? || o.Stop?
    {
      if terminated {
        return Stop;
      }
      if cursor < tunnel.baseSequence {
        terminated := true;
        return Lag(cursor, tunnel.baseSequence);
      }
      var offset := cursor - tunnel.baseSequence;
      if offset < |tunnel.items| {
        cursor := cursor + 1;
        return Item(tunnel.items[offset]);
      }
      if tunnel.failure.Some? {
        terminated := true;
        return Error(tunnel.failure.value);
      }
      if tunnel.closed {
        terminated := true;
        return Stop;
      }
      return Block;
    }

    method Next() returns (o: Outcome<T>)
      requires Valid()
      modifies this, tunnel`spec
      ensures Valid() && tunnel.spec == Step(old(tunnel.spec), Replay.Read(id, None))
      ensures o == Attempt(tunnel.View(), old(cursor), old(terminated))
      ensures cursor == old(cursor) + (if o.Item? then 1 else 0)
      ensures terminated <==> old(terminated) || o.Lag? || o.Error? || o.Stop?
    {
      o := Pass();
      tunnel.spec := Step(tunnel.spec, Replay.Read(id, None));
    }

    /** `__anext__`: a pass that would block registers its waiter in the same
        critical section, and no other pass does. */
    method NextAsync(waiter: Wake.Waiter) returns (o: Outcome<T>)
      requires Valid() && waiter.future !in tunnel.spec.parked
      modifies this, tunnel`waiters, tunnel`spec
      ensures Valid() && tunnel.spec == Step(old(tunnel.spec), Replay.Read(id, Some(waiter.future)))
      ensures o == Attempt(tunnel.View(), old(cursor), old(terminated))
      ensures tunnel.waiters == old(tunnel.waiters) + (if o.Block? then {waiter} else {})
    {
      o := Pass();
      tunnel.spec := Step(tunnel.spec, Replay.Read(id, Some(waiter.future)));
      if o.Block? {
        assert waiter !in tunnel.waiters;
        tunnel.waiters := tunnel.waiters + {waiter};
      }
    }

    /** A wait that outlasts the timeout ends the subscription. */
    method TimeOut()
      requires Valid()
      modifies this`terminated, tunnel`spec
      ensures Valid() && tunnel.spec == Step(old(tunnel.spec), Replay.TimeOut(id)) && terminated
    {
      terminated := true;
      tunnel.spec := Step(tunnel.spec, Replay.TimeOut(id));
    }

    method Close(open: set<nat>) returns (calls: seq<Wake.Callback>)
      requires Valid()
      modifies this, tunnel`waiters, tunnel`spec
      ensures Valid() && tunnel.spec == Step(old(tunnel.spec), Replay.CloseReader(id))
      ensures terminated && cursor == old(cursor)
      ensures if old(terminated) then calls == [] && tunnel.waiters == old(tunnel.waiters)
              else tunnel.waiters == {} && Wake.Delivers(calls, old(tunnel.waiters), open)
    {
      if terminated {
        return [];
      }
      terminated := true;
      tunnel.spec := Step(tunnel.spec, Replay.CloseReader(id));
      calls := tunnel.WakeWaiters(open);
    }
  }
}
